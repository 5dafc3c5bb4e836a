/**
 A small model of the POSIX.1-2017 Shell Command Language: how one command line
 without operators, redirections or substitutions becomes a list of fields
 (sections 2.2.2, 2.2.3, 2.3, 2.6.2 and 2.6.5), and how the `env` utility turns
 those fields into a process. Whatever lies outside that subset evaluates to `None`.
 */
module PosixShell {
  import opened Common

  type Vars = map<string, string>

  /** What a program is started with. */
  datatype Process = Process(executable: string, argv: seq<string>, environment: Vars)

  predicate Blank(c: char) { c == ' ' || c == '\t' }

  predicate NameStart(c: char) { 'a' <= c <= 'z' || 'A' <= c <= 'Z' || c == '_' }

  predicate NameChar(c: char) { NameStart(c) || '0' <= c <= '9' }

  /** Section 2.2: an unquoted character the shell does not simply copy. */
  predicate Special(c: char)
  {
    || c == '|' || c == '&' || c == ';' || c == '<' || c == '>' || c == '(' || c == ')'
    || c == '$' || c == '`' || c == '\\' || c == '\"' || c == '\'' || c == ' ' || c == '\t' || c == '\n'
    || c == '*' || c == '?' || c == '[' || c == '#' || c == '~' || c == '!' || c == '{' || c == '}'
  }

  /** The length of the longest variable name at the head of `src`. */
  function NameLength(src: string): (n: nat)
    ensures n <= |src|
    ensures forall i :: 0 <= i < n ==> NameChar(src[i])
    ensures n > 0 ==> NameStart(src[0])
    ensures 0 < n < |src| ==> !NameChar(src[n])
  {
    if src == "" || !NameStart(src[0]) then 0 else 1 + NameTail(src[1..])
  }

  function NameTail(src: string): (n: nat)
    ensures n <= |src|
    ensures forall i :: 0 <= i < n ==> NameChar(src[i])
    ensures n < |src| ==> !NameChar(src[n])
  {
    if src == "" || !NameChar(src[0]) then 0 else 1 + NameTail(src[1..])
  }

  /** Section 2.6.2: an unset variable expands to nothing, with or without `-`. */
  function Lookup(vars: Vars, name: string): string
  {
    if name in vars then vars[name] else ""
  }

  /** Section 2.6.2: `${NAME}` and `${NAME-}`, from just after the dollar sign. */
  function Parameter(src: string, vars: Vars): (r: Option<(string, string)>)
    ensures r.Some? ==> |r.value.1| < |src|
  {
    if src == "" || src[0] != '{' then None
    else
      var n := NameLength(src[1..]);
      var name, rest := src[1..][..n], src[1..][n..];
      if n == 0 then None
      else if rest != "" && rest[0] == '}' then Some((Lookup(vars, name), rest[1..]))
      else if |rest| >= 2 && rest[0] == '-' && rest[1] == '}' then Some((Lookup(vars, name), rest[2..]))
      else None
  }

  function Prepend(text: string, r: Option<(string, string)>): Option<(string, string)>
  {
    match r
    case None => None
    case Some((word, rest)) => Some((text + word, rest))
  }

  /** Section 2.2.2: everything up to the next single quote is literal. */
  function SingleQuoted(src: string): (r: Option<(string, string)>)
    ensures r.Some? ==> |r.value.1| < |src|
  {
    if src == "" then None
    else if src[0] == '\'' then Some(("", src[1..]))
    else Prepend([src[0]], SingleQuoted(src[1..]))
  }

  /** Section 2.2.3: only the backslash, the backquote and the dollar sign stay special. */
  function DoubleQuoted(src: string, vars: Vars): (r: Option<(string, string)>)
    ensures r.Some? ==> |r.value.1| < |src|
    decreases |src|
  {
    if src == "" || src[0] == '`' then None
    else if src[0] == '\"' then Some(("", src[1..]))
    else if src[0] == '\\' && |src| >= 2 && src[1] == '\n' then DoubleQuoted(src[2..], vars)
    else if src[0] == '\\' && |src| >= 2 && (src[1] == '$' || src[1] == '`' || src[1] == '\"' || src[1] == '\\') then
      Prepend([src[1]], DoubleQuoted(src[2..], vars))
    else if src[0] == '$' then
      match Parameter(src[1..], vars)
      case None => None
      case Some((value, rest)) => Prepend(value, DoubleQuoted(rest, vars))
    else Prepend([src[0]], DoubleQuoted(src[1..], vars))
  }

  /** One quoted section, or one unquoted literal character. */
  function Piece(src: string, vars: Vars): (r: Option<(string, string)>)
    requires src != ""
    ensures r.Some? ==> |r.value.1| < |src|
  {
    if src[0] == '\'' then SingleQuoted(src[1..])
    else if src[0] == '\"' then DoubleQuoted(src[1..], vars)
    else if Special(src[0]) then None
    else Some(([src[0]], src[1..]))
  }

  predicate WordEnds(src: string) { src == "" || Blank(src[0]) }

  /** Section 2.3: a word runs to the next unquoted blank. Only double-quoted text is
      expanded, so section 2.6.5 never splits it. */
  function Word(src: string, vars: Vars): (r: Option<(string, string)>)
    ensures r.Some? ==> |r.value.1| <= |src| && WordEnds(r.value.1)
    ensures r.Some? && !WordEnds(src) ==> |r.value.1| < |src|
    decreases |src|
  {
    if WordEnds(src) then Some(("", src))
    else
      match Piece(src, vars)
      case None => None
      case Some((text, rest)) => Prepend(text, Word(rest, vars))
  }

  /** The fields of a command line. */
  function Fields(src: string, vars: Vars): (r: Option<seq<string>>)
    decreases |src|
  {
    if src == "" then Some([])
    else if Blank(src[0]) then Fields(src[1..], vars)
    else
      match Word(src, vars)
      case None => None
      case Some((word, rest)) =>
        match Fields(rest, vars)
        case None => None
        case Some(more) => Some([word] + more)
  }

  /** The position of the first `=`, or the length when there is none. */
  function EqualsAt(s: string): (n: nat)
    ensures n <= |s|
    ensures forall i :: 0 <= i < n ==> s[i] != '='
    ensures n < |s| ==> s[n] == '='
  {
    if s == "" || s[0] == '=' then 0 else 1 + EqualsAt(s[1..])
  }

  /** The operands of `env`: assignments first, in order, then the utility and its arguments. */
  function EnvOperands(fields: seq<string>, environment: Vars): Option<Process>
  {
    if fields == [] then None
    else
      var n := EqualsAt(fields[0]);
      if n == |fields[0]| then Some(Process(fields[0], fields[1..], environment))
      else if n == 0 then None
      else EnvOperands(fields[1..], environment[fields[0][..n] := fields[0][n + 1..]])
  }

  /** `env -i`, which starts from an empty environment. A further option is outside the subset. */
  function Env(fields: seq<string>): Option<Process>
  {
    if |fields| >= 3 && fields[0] == "env" && fields[1] == "-i" && (fields[2] == "" || fields[2][0] != '-')
    then EnvOperands(fields[2..], map[])
    else None
  }

  /** The process that a command line starts in a shell with these variables. */
  function Run(src: string, vars: Vars): Option<Process>
  {
    match Fields(src, vars)
    case None => None
    case Some(fields) => Env(fields)
  }
}
