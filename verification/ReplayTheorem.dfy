/** Compiling an execution to shell text preserves its meaning, and exactly when. */
module ReplayTheorem {
  import opened Common
  import opened NodePath
  import opened Replay
  import opened ReplayTokens
  import Shell = PosixShell

  /** The variables of a shell that stands in `root` and has nothing else in its environment. */
  function Bare(root: string): Shell.Vars { map["PWD" := root] }

  /** Running the printed command line starts exactly the process the runner would start. */
  predicate Replays(e: Execution, root: string, host: Shell.Vars)
    requires MakePortable(e, root).Ok? && FormatPortable(MakePortable(e, root).value).Ok?
  {
    Shell.Run(FormatPortable(MakePortable(e, root).value).value, host) == Some(Intended(e, host))
  }

  // ---- the condition, which a caller can check beforehand ----

  /** No character that stays special between double quotes, apart from those the printer escapes. */
  predicate Literal(text: string) { '$' !in text && '`' !in text }

  predicate TokenReplayable(value: string, root: string)
  {
    if value == root then true
    else if IsAbsolute(value) then
      && StartsWith(value, root + "/")
      && AllPlain(Split(value[|root| + 1..]))
      && Literal(value[|root| + 1..])
    else !PwdRelative(value)
  }

  predicate ExecutableReplayable(e: Execution)
  {
    && !PwdRelative(e.executable)
    && '=' !in e.executable
    && (|e.inheritedKeys| + |e.overrides| > 0 || e.executable == "" || e.executable[0] != '-')
  }

  predicate Replayable(e: Execution, root: string)
  {
    && ExecutableReplayable(e)
    && (forall value <- e.argv :: TokenReplayable(value, root))
    && (forall value <- Values(e.overrides) :: TokenReplayable(value, root))
  }

  // ---- one value ----

  lemma {:induction false} LiteralTail(text: string, vars: Shell.Vars)
    requires Literal(text)
    ensures TailValue(text, vars) == Some(text)
  {
    if text != "" {
      assert text[0] in text;
      LiteralTail(text[1..], vars);
      assert [text[0]] + text[1..] == text;
    }
  }

  /** With nothing but `PWD` set, an expansion can only bring in characters of the root. */
  lemma {:induction false} TailLosesDollar(text: string, root: string)
    requires '$' !in root
    requires TailValue(text, Bare(root)).Some?
    ensures '$' !in TailValue(text, Bare(root)).value
    ensures '`' !in text || '$' in text
    decreases |text|
  {
    if text != "" {
      if text[0] == '$' {
        var (value, rest) := Shell.Parameter(text[1..], Bare(root)).value;
        TailLosesDollar(rest, root);
        ParameterFromVars(text[1..], Bare(root));
        assert text[0] in text;
      } else {
        TailLosesDollar(text[1..], root);
        assert text == [text[0]] + text[1..];
      }
    }
  }

  lemma ParameterFromVars(src: string, vars: Shell.Vars)
    requires Shell.Parameter(src, vars).Some?
    ensures Shell.Parameter(src, vars).value.0 == "" || Shell.Parameter(src, vars).value.0 in vars.Values
  {
  }

  lemma {:induction false} NormalFromInput(stack: seq<string>, segments: seq<string>, c: char)
    requires AllPlain(stack)
    requires forall seg :: seg in segments ==> '/' !in seg
    requires forall seg :: seg in stack ==> c !in seg
    requires forall seg :: seg in segments ==> c !in seg
    ensures forall seg :: seg in Normal(stack, segments) ==> c !in seg
    decreases |segments|
  {
    if segments != [] {
      var head := segments[0];
      var next :=
        if head == "" || head == "." then stack
        else if head == ".." then if stack == [] then stack else stack[..|stack| - 1]
        else stack + [head];
      NormalFromInput(next, segments[1..], c);
    }
  }

  lemma {:induction false} SplitFromInput(s: string, c: char)
    requires c !in s
    ensures forall seg :: seg in Split(s) ==> c !in seg
  {
    if s != "" {
      assert s == [s[0]] + s[1..];
      SplitFromInput(s[1..], c);
    }
  }

  lemma {:induction false} JoinFromInput(segments: seq<string>, c: char)
    requires c != '/'
    requires forall seg :: seg in segments ==> c !in seg
    ensures c !in Join(segments)
  {
    if |segments| > 1 {
      JoinFromInput(segments[1..], c);
    }
  }

  /** A relative path has no character that its target lacks. */
  lemma RelativeFromInput(root: string, value: string, c: char)
    requires IsPathInside(root, value) && c != '/' && c !in value
    ensures c !in Relative(root, value)
  {
    InsideMeansBelow(root, value);
    SplitFromInput(value, c);
    NormalFromInput([], Split(value), c);
    JoinFromInput(Resolved(value)[|Resolved(root)|..], c);
  }

  /** The textual condition on an absolute value is what makes the relative path its tail. */
  lemma RelativeIsTail(root: string, value: string)
    requires IsPathInside(root, value)
    ensures value == root + "/" + Relative(root, value) <==>
            StartsWith(value, root + "/") && AllPlain(Split(value[|root| + 1..]))
    ensures value == root + "/" + Relative(root, value) ==> value[|root| + 1..] == Relative(root, value)
  {
    InsideMeansBelow(root, value);
    var below := Resolved(value)[|Resolved(root)|..];
    if value == root + "/" + Relative(root, value) {
      assert value[..|root| + 1] == root + "/" && value[|root| + 1..] == Join(below);
      SplitJoin(below);
    }
    if StartsWith(value, root + "/") && AllPlain(Split(value[|root| + 1..])) {
      var tail := value[|root| + 1..];
      JoinSplit(tail);
      assert value == root + "/" + Join(Split(tail));
      ResolvedBelow(root, Split(tail));
      assert below == Split(tail);
    }
  }

  lemma AbsoluteToken(value: string, root: string, host: Shell.Vars)
    requires IsAbsolute(value) && IsPathInside(root, value) && value != root
    requires "PWD" in host && host["PWD"] == root
    ensures PwdRelative("$PWD/" + Relative(root, value))
    ensures TokenValue("$PWD/" + Relative(root, value), host) == Glue(root + "/", TailValue(Relative(root, value), host))
  {
    var relative := Relative(root, value);
    var text := "$PWD/" + relative;
    assert text[..5] == "$PWD/";
    assert text[4..] == "/" + relative && (text[4..])[1..] == relative;
    if TailValue(relative, host).Some? {
      var t := TailValue(relative, host).value;
      assert root + ("/" + t) == root + "/" + t;
    }
  }

  /** A replayable value comes back unchanged in every shell that stands in the root. */
  lemma TokenKept(value: string, root: string, host: Shell.Vars)
    requires PortableValue(value, root).Ok? && TokenReplayable(value, root)
    requires "PWD" in host && host["PWD"] == root
    ensures TokenValue(PortableValue(value, root).value, host) == Some(value)
  {
    if value == root {
      assert "$PWD"[4..] == "" && root + "" == root;
    } else if IsAbsolute(value) {
      RelativeIsTail(root, value);
      AbsoluteToken(value, root, host);
      assert value == root + "/" + Relative(root, value);
      assert value[|root| + 1..] == Relative(root, value);
      LiteralTail(Relative(root, value), host);
    }
  }

  /** Any other value is changed or refused already in the bare shell. */
  lemma TokenLost(value: string, root: string)
    requires IsAbsolute(root) && '$' !in root
    requires PortableValue(value, root).Ok? && !TokenReplayable(value, root)
    ensures TokenValue(PortableValue(value, root).value, Bare(root)) != Some(value)
  {
    var host := Bare(root);
    if IsAbsolute(value) {
      var relative := Relative(root, value);
      AbsoluteToken(value, root, host);
      RelativeIsTail(root, value);
      if Literal(relative) {
        LiteralTail(relative, host);
      } else if TailValue(relative, host).Some? {
        TailLosesDollar(relative, root);
        var out := root + "/" + TailValue(relative, host).value;
        assert '$' !in out;
        if '$' !in value { RelativeFromInput(root, value, '$'); }
      }
    } else {
      PwdTokenIsAbsolute(value, root);
    }
  }

  /** What an expanded token starts with. */
  lemma PwdTokenIsAbsolute(text: string, root: string)
    requires IsAbsolute(root) && PwdRelative(text)
    ensures TokenValue(text, Bare(root)).Some? ==> IsAbsolute(TokenValue(text, Bare(root)).value)
  {
    if TailValue(text[4..], Bare(root)).Some? {
      assert (root + TailValue(text[4..], Bare(root)).value)[0] == root[0];
    }
  }

  // ---- the whole command line ----

  function Field(entry: (string, string)): string { entry.0 + "=" + entry.1 }

  /** The fields of the printed line, given what each value and argument expands to. */
  function FieldsFor(entries: seq<(string, string)>, executable: string, argv: seq<string>): seq<string>
  {
    ["env", "-i"] + Map(Field, entries) + [executable] + argv
  }

  function OverrideValues(overrides: seq<(string, string)>, host: Shell.Vars): (r: seq<Option<string>>)
    ensures |r| == |overrides|
    ensures forall i :: 0 <= i < |r| ==> r[i] == Glue(overrides[i].0 + "=", TokenValue(overrides[i].1, host))
  {
    Map((entry: (string, string)) => Glue(entry.0 + "=", TokenValue(entry.1, host)), overrides)
  }

  function Expanded(p: Execution, host: Shell.Vars): seq<Option<string>>
  {
    [Some("env"), Some("-i")]
    + Map(key => Some(Field(InheritedEntry(key, host))), p.inheritedKeys)
    + OverrideValues(p.overrides, host)
    + [TokenValue(p.executable, host)]
    + Map(text => TokenValue(text, host), p.argv)
  }

  lemma BareWordReads(text: string, host: Shell.Vars)
    requires BareToken(text)
    ensures Reads(text, Some(text), host)
  {
    forall rest | Shell.WordEnds(rest)
      ensures Shell.Word(text + rest, host) == Some((text, rest))
    {
      BareTokenReads(text, rest, host);
    }
  }

  ghost predicate AllRead(tokens: seq<string>, values: seq<Option<string>>, host: Shell.Vars)
  {
    |tokens| == |values| && forall i :: 0 <= i < |tokens| ==> Reads(tokens[i], values[i], host)
  }

  lemma AllReadConcat(
      a: seq<string>, x: seq<Option<string>>, b: seq<string>, y: seq<Option<string>>, host: Shell.Vars)
    requires AllRead(a, x, host) && AllRead(b, y, host)
    ensures AllRead(a + b, x + y, host)
  {
    forall i | 0 <= i < |a + b| ensures Reads((a + b)[i], (x + y)[i], host) {
      assert i < |a| ==> Reads(a[i], x[i], host);
      assert i >= |a| ==> Reads(b[i - |a|], y[i - |a|], host);
    }
  }

  lemma InheritedRead(keys: seq<string>, host: Shell.Vars)
    requires forall key <- keys :: InheritedKey(key)
    ensures AllRead(Map(InheritedToken, keys), Map(key => Some(Field(InheritedEntry(key, host))), keys), host)
  {
    forall i | 0 <= i < |keys|
      ensures Reads(InheritedToken(keys[i]), Some(Field(InheritedEntry(keys[i], host))), host)
    {
      InheritedReads(keys[i], host);
    }
  }

  lemma OverridesRead(overrides: seq<(string, string)>, host: Shell.Vars)
    requires forall key <- Keys(overrides) :: OverrideKey(key)
    ensures AllRead(Map(OverrideToken, overrides), OverrideValues(overrides, host), host)
  {
    forall i | 0 <= i < |overrides|
      ensures Reads(OverrideToken(overrides[i]), Glue(overrides[i].0 + "=", TokenValue(overrides[i].1, host)), host)
    {
      var (key, text) := overrides[i];
      assert key == Keys(overrides)[i] && OverrideKey(key);
      assert forall j :: 0 <= j < |key| ==> key[j] in key;
      TokenReads(text, host);
      AssignmentReads(key, ShellToken(text), TokenValue(text, host), host);
    }
  }

  lemma ArgumentsRead(argv: seq<string>, host: Shell.Vars)
    ensures AllRead(Map(ShellToken, argv), Map(text => TokenValue(text, host), argv), host)
  {
    forall i | 0 <= i < |argv|
      ensures Reads(ShellToken(argv[i]), TokenValue(argv[i], host), host)
    {
      TokenReads(argv[i], host);
    }
  }

  lemma LineExpands(p: Execution, host: Shell.Vars)
    requires FormatPortable(p).Ok?
    ensures Shell.Fields(FormatPortable(p).value, host) == AllSome(Expanded(p, host))
  {
    BareWordReads("env", host);
    BareWordReads("-i", host);
    InheritedRead(p.inheritedKeys, host);
    OverridesRead(p.overrides, host);
    TokenReads(p.executable, host);
    ArgumentsRead(p.argv, host);
    var a, x := ["env", "-i"], [Some("env"), Some("-i")];
    var b, y := Map(InheritedToken, p.inheritedKeys), Map(key => Some(Field(InheritedEntry(key, host))), p.inheritedKeys);
    var c, z := Map(OverrideToken, p.overrides), OverrideValues(p.overrides, host);
    AllReadConcat(a, x, b, y, host);
    AllReadConcat(a + b, x + y, c, z, host);
    AllReadConcat(a + b + c, x + y + z, [ShellToken(p.executable)], [TokenValue(p.executable, host)], host);
    AllReadConcat(
      a + b + c + [ShellToken(p.executable)], x + y + z + [TokenValue(p.executable, host)],
      Map(ShellToken, p.argv), Map(text => TokenValue(text, host), p.argv), host);
    FieldsOfTokens(Tokens(p), Expanded(p, host), host);
  }

  ghost predicate Gives(values: seq<Option<string>>, plain: seq<string>)
  {
    |values| == |plain| && forall i :: 0 <= i < |values| ==> values[i] == Some(plain[i])
  }

  lemma GivesConcat(x: seq<Option<string>>, a: seq<string>, y: seq<Option<string>>, b: seq<string>)
    requires Gives(x, a) && Gives(y, b)
    ensures Gives(x + y, a + b)
  {
  }

  lemma GivesAll(values: seq<Option<string>>, plain: seq<string>)
    requires Gives(values, plain)
    ensures AllSome(values) == Some(plain)
  {
    assert AllSome(values).Some?;
    assert AllSome(values).value == plain;
  }

  lemma {:induction false} OperandsAssign(
      entries: seq<(string, string)>, rest: seq<string>, environment: Shell.Vars)
    requires forall i :: 0 <= i < |entries| ==> entries[i].0 != "" && '=' !in entries[i].0
    ensures Shell.EnvOperands(Map(Field, entries) + rest, environment) ==
            Shell.EnvOperands(rest, Assign(entries, environment))
  {
    if entries == [] {
      assert Map(Field, entries) + rest == rest;
    } else {
      var (key, value) := entries[0];
      var fields := Map(Field, entries) + rest;
      assert fields[1..] == Map(Field, entries[1..]) + rest;
      var head := fields[0];
      assert head == key + "=" + value && head[|key|] == '=' && head[..|key|] == key && head[|key| + 1..] == value;
      assert Shell.EqualsAt(head) == |key| by {
        assert forall i :: 0 <= i < |key| ==> head[i] == key[i] && key[i] in key;
      }
      OperandsAssign(entries[1..], rest, environment[key := value]);
    }
  }

  predicate UsableKeys(entries: seq<(string, string)>)
  {
    forall i :: 0 <= i < |entries| ==>
      entries[i].0 != "" && '=' !in entries[i].0 && entries[i].0[0] != '-'
  }

  /** What `env` starts, once the assignments are consumed. */
  lemma EnvOfFields(entries: seq<(string, string)>, executable: string, argv: seq<string>)
    requires UsableKeys(entries)
    ensures Shell.Env(FieldsFor(entries, executable, argv)) ==
            if entries == [] && executable != "" && executable[0] == '-' then None
            else Shell.EnvOperands([executable] + argv, Assign(entries, map[]))
  {
    var fields := FieldsFor(entries, executable, argv);
    assert fields[2..] == Map(Field, entries) + ([executable] + argv);
    if entries != [] {
      assert fields[2] == Field(entries[0]) && Field(entries[0])[0] == entries[0].0[0];
    } else {
      assert fields[2] == executable;
    }
    OperandsAssign(entries, [executable] + argv, map[]);
  }

  lemma NoEqualsAt(s: string)
    ensures Shell.EqualsAt(s) == |s| <==> '=' !in s
  {
  }

  /** Whatever `env` starts has a name without an equals sign, taken from its operands. */
  lemma {:induction false} OperandsName(fields: seq<string>, environment: Shell.Vars)
    requires Shell.EnvOperands(fields, environment).Some?
    ensures var name := Shell.EnvOperands(fields, environment).value.executable;
            name in fields && '=' !in name
  {
    var n := Shell.EqualsAt(fields[0]);
    NoEqualsAt(fields[0]);
    if n != |fields[0]| {
      OperandsName(fields[1..], environment[fields[0][..n] := fields[0][n + 1..]]);
    }
  }

  lemma KeysUsable(p: Execution, host: Shell.Vars)
    requires forall key <- p.inheritedKeys :: InheritedKey(key)
    requires forall key <- Keys(p.overrides) :: OverrideKey(key)
    ensures UsableKeys(Assignments(p, host))
  {
    var entries := Assignments(p, host);
    forall i | 0 <= i < |entries|
      ensures entries[i].0 != "" && '=' !in entries[i].0 && entries[i].0[0] != '-'
    {
      var key := entries[i].0;
      if i < |p.inheritedKeys| {
        assert key == p.inheritedKeys[i] && InheritedKey(key);
      } else {
        assert key == Keys(p.overrides)[i - |p.inheritedKeys|] && OverrideKey(key);
      }
    }
  }

  lemma LineGives(p: Execution, values: seq<string>, executable: string, argv: seq<string>, host: Shell.Vars)
    requires |values| == |p.overrides| && |argv| == |p.argv|
    requires forall i :: 0 <= i < |values| ==> TokenValue(p.overrides[i].1, host) == Some(values[i])
    requires TokenValue(p.executable, host) == Some(executable)
    requires forall i :: 0 <= i < |argv| ==> TokenValue(p.argv[i], host) == Some(argv[i])
    ensures AllSome(Expanded(p, host)) ==
            Some(FieldsFor(Assignments(p.(overrides := Zip(Keys(p.overrides), values)), host), executable, argv))
  {
    var overrides := Zip(Keys(p.overrides), values);
    var inherited := Map(key => InheritedEntry(key, host), p.inheritedKeys);
    var x := [Some("env"), Some("-i")];
    var y := Map(key => Some(Field(InheritedEntry(key, host))), p.inheritedKeys);
    var z := OverrideValues(p.overrides, host);
    var arguments := Map(text => TokenValue(text, host), p.argv);
    var a, b, c := ["env", "-i"], Map(Field, inherited), Map(Field, overrides);
    InheritedGives(p, host);
    OverridesGive(p, values, host);
    assert Gives(arguments, argv) && Gives([TokenValue(p.executable, host)], [executable]) && Gives(x, a);
    assert Expanded(p, host) == x + y + z + [TokenValue(p.executable, host)] + arguments;
    assert Assignments(p.(overrides := overrides), host) == inherited + overrides;
    FieldMapConcat(inherited, overrides);
    var all := inherited + overrides;
    assert FieldsFor(all, executable, argv) == a + Map(Field, all) + [executable] + argv;
    hide *;
    GivesConcat(x, a, y, b);
    GivesConcat(x + y, a + b, z, c);
    GivesConcat(x + y + z, a + b + c, [TokenValue(p.executable, host)], [executable]);
    GivesConcat(x + y + z + [TokenValue(p.executable, host)], a + b + c + [executable], arguments, argv);
    GivesAll(Expanded(p, host), a + b + c + [executable] + argv);
    Regroup(a, b, c);
  }

  lemma InheritedGives(p: Execution, host: Shell.Vars)
    ensures Gives(Map(key => Some(Field(InheritedEntry(key, host))), p.inheritedKeys),
                  Map(Field, Map(key => InheritedEntry(key, host), p.inheritedKeys)))
  {
  }

  lemma OverridesGive(p: Execution, values: seq<string>, host: Shell.Vars)
    requires |values| == |p.overrides|
    requires forall i :: 0 <= i < |values| ==> TokenValue(p.overrides[i].1, host) == Some(values[i])
    ensures Gives(OverrideValues(p.overrides, host), Map(Field, Zip(Keys(p.overrides), values)))
  {
    hide TokenValue;
    var overrides, z := Zip(Keys(p.overrides), values), OverrideValues(p.overrides, host);
    forall i | 0 <= i < |z| ensures z[i] == Some(Map(Field, overrides)[i]) {
      assert overrides[i] == (Keys(p.overrides)[i], values[i]) && p.overrides[i].0 == Keys(p.overrides)[i];
    }
  }

  lemma FieldMapConcat(a: seq<(string, string)>, b: seq<(string, string)>)
    ensures Map(Field, a) + Map(Field, b) == Map(Field, a + b)
  {
  }

  /** When every value expands to something, the line runs `env` on exactly those fields. */
  lemma LineRuns(p: Execution, values: seq<string>, executable: string, argv: seq<string>, host: Shell.Vars)
    requires FormatPortable(p).Ok?
    requires |values| == |p.overrides| && |argv| == |p.argv|
    requires forall i :: 0 <= i < |values| ==> TokenValue(p.overrides[i].1, host) == Some(values[i])
    requires TokenValue(p.executable, host) == Some(executable)
    requires forall i :: 0 <= i < |argv| ==> TokenValue(p.argv[i], host) == Some(argv[i])
    ensures var entries := Assignments(p.(overrides := Zip(Keys(p.overrides), values)), host);
            Shell.Run(FormatPortable(p).value, host) ==
            if entries == [] && executable != "" && executable[0] == '-' then None
            else Shell.EnvOperands([executable] + argv, Assign(entries, map[]))
  {
    var q := p.(overrides := Zip(Keys(p.overrides), values));
    LineExpands(p, host);
    LineGives(p, values, executable, argv, host);
    KeysUsable(q, host);
    EnvOfFields(Assignments(q, host), executable, argv);
  }

  lemma PresentParts(x: seq<Option<string>>, y: seq<Option<string>>)
    requires AllSome(x + y).Some?
    ensures AllSome(x).Some? && AllSome(y).Some?
  {
    assert forall i :: 0 <= i < |x| ==> (x + y)[i] == x[i];
    assert forall i :: 0 <= i < |y| ==> (x + y)[|x| + i] == y[i];
  }

  /** A line that runs at all has a value for every token. */
  lemma LineNeedsValues(p: Execution, host: Shell.Vars)
    requires FormatPortable(p).Ok? && Shell.Run(FormatPortable(p).value, host).Some?
    ensures TokenValue(p.executable, host).Some?
    ensures forall i :: 0 <= i < |p.argv| ==> TokenValue(p.argv[i], host).Some?
    ensures forall i :: 0 <= i < |p.overrides| ==> TokenValue(p.overrides[i].1, host).Some?
  {
    LineExpands(p, host);
    var x := [Some("env"), Some("-i")] + Map(key => Some(Field(InheritedEntry(key, host))), p.inheritedKeys);
    var z := OverrideValues(p.overrides, host);
    var arguments := Map(text => TokenValue(text, host), p.argv);
    PresentParts(x + z + [TokenValue(p.executable, host)], arguments);
    PresentParts(x + z, [TokenValue(p.executable, host)]);
    PresentParts(x, z);
    assert forall i :: 0 <= i < |p.argv| ==> arguments[i] == TokenValue(p.argv[i], host);
    assert forall i :: 0 <= i < |p.overrides| ==> z[i].Some?;
  }

  // ---- main results ----

  /** Sufficiency: a replayable execution means the same in every shell that stands in the root. */
  lemma ReplayPreservesMeaning(e: Execution, root: string, host: Shell.Vars)
    requires MakePortable(e, root).Ok? && FormatPortable(MakePortable(e, root).value).Ok?
    requires "PWD" in host && host["PWD"] == root
    requires Replayable(e, root)
    ensures Replays(e, root, host)
  {
    var p := MakePortable(e, root).value;
    forall i | 0 <= i < |e.argv|
      ensures TokenValue(p.argv[i], host) == Some(e.argv[i])
    {
      TokenKept(e.argv[i], root, host);
    }
    forall i | 0 <= i < |e.overrides|
      ensures TokenValue(p.overrides[i].1, host) == Some(Values(e.overrides)[i])
    {
      TokenKept(Values(e.overrides)[i], root, host);
      assert Values(p.overrides)[i] == p.overrides[i].1;
    }
    LineRuns(p, Values(e.overrides), e.executable, e.argv, host);
    assert Zip(Keys(p.overrides), Values(e.overrides)) == e.overrides;
    NoEqualsAt(e.executable);
    assert ([e.executable] + e.argv)[1..] == e.argv;
  }

  lemma {:induction false} AssignLast(entries: seq<(string, string)>, environment: Shell.Vars, i: nat)
    requires i < |entries| && forall j :: i < j < |entries| ==> entries[j].0 != entries[i].0
    ensures entries[i].0 in Assign(entries, environment)
    ensures Assign(entries, environment)[entries[i].0] == entries[i].1
  {
    if i > 0 {
      AssignLast(entries[1..], environment[entries[0].0 := entries[0].1], i - 1);
    } else {
      AssignKeeps(entries[1..], environment[entries[0].0 := entries[0].1], entries[0].0);
    }
  }

  lemma {:induction false} AssignKeeps(entries: seq<(string, string)>, environment: Shell.Vars, key: string)
    requires key in environment && forall j :: 0 <= j < |entries| ==> entries[j].0 != key
    ensures key in Assign(entries, environment) && Assign(entries, environment)[key] == environment[key]
  {
    if entries != [] {
      AssignKeeps(entries[1..], environment[entries[0].0 := entries[0].1], key);
    }
  }

  /** Distinct override keys never hide one another, so equal environments have equal overrides. */
  lemma OverridesDetermined(e: Execution, values: seq<string>, host: Shell.Vars)
    requires |values| == |e.overrides| && Distinct(Keys(e.overrides))
    requires Assign(Assignments(e.(overrides := Zip(Keys(e.overrides), values)), host), map[]) ==
             Assign(Assignments(e, host), map[])
    ensures forall i :: 0 <= i < |values| ==> e.overrides[i].1 == values[i]
  {
    var n := |e.inheritedKeys|;
    var actual := Assignments(e.(overrides := Zip(Keys(e.overrides), values)), host);
    var wanted := Assignments(e, host);
    forall i | 0 <= i < |values|
      ensures e.overrides[i].1 == values[i]
    {
      assert actual[n + i] == (Keys(e.overrides)[i], values[i]) && wanted[n + i] == e.overrides[i];
      forall j | n + i < j < |wanted|
        ensures actual[j].0 != actual[n + i].0 && wanted[j].0 != wanted[n + i].0
      {
        assert Keys(e.overrides)[j - n] != Keys(e.overrides)[i];
        assert actual[j] == (Keys(e.overrides)[j - n], values[j - n]) && wanted[j] == e.overrides[j - n];
      }
      AssignLast(actual, map[], n + i);
      AssignLast(wanted, map[], n + i);
    }
  }

  /** The printed executable is read as itself, whenever the replay starts the right program. */
  lemma ExecutableKept(e: Execution, root: string, executable: string, argv: seq<string>, environment: Shell.Vars)
    requires IsAbsolute(root) && TokenValue(e.executable, Bare(root)) == Some(executable)
    requires Shell.EnvOperands([executable] + argv, environment).Some?
    requires Shell.EnvOperands([executable] + argv, environment).value.executable == e.executable
    requires forall value <- argv :: !PwdRelative(value)
    ensures executable == e.executable && '=' !in e.executable && !PwdRelative(e.executable)
  {
    OperandsName([executable] + argv, environment);
    if PwdRelative(e.executable) {
      PwdTokenIsAbsolute(e.executable, root);
    }
  }

  lemma TokenNeverPwdRelative(text: string, root: string)
    requires IsAbsolute(root) && TokenValue(text, Bare(root)).Some?
    ensures !PwdRelative(TokenValue(text, Bare(root)).value)
  {
    if PwdRelative(text) { PwdTokenIsAbsolute(text, root); }
  }

  /** What the bare shell must read if the replay is to start the right process, for every root. */
  lemma ValuesKept(e: Execution, root: string)
    requires MakePortable(e, root).Ok? && FormatPortable(MakePortable(e, root).value).Ok?
    requires Distinct(Keys(e.overrides)) && Replays(e, root, Bare(root))
    ensures var p, host := MakePortable(e, root).value, Bare(root);
            && (forall i :: 0 <= i < |e.argv| ==> TokenValue(p.argv[i], host) == Some(e.argv[i]))
            && (forall i :: 0 <= i < |e.overrides| ==> TokenValue(p.overrides[i].1, host) == Some(e.overrides[i].1))
            && ExecutableReplayable(e)
  {
    var host := Bare(root);
    var p := MakePortable(e, root).value;
    LineNeedsValues(p, host);
    var values := seq(|p.overrides|, i requires 0 <= i < |p.overrides| => TokenValue(p.overrides[i].1, host).value);
    var argv := seq(|p.argv|, i requires 0 <= i < |p.argv| => TokenValue(p.argv[i], host).value);
    var executable := TokenValue(p.executable, host).value;
    LineRuns(p, values, executable, argv, host);
    forall i | 0 <= i < |argv| ensures !PwdRelative(argv[i]) { TokenNeverPwdRelative(p.argv[i], root); }
    var entries := Assignments(p.(overrides := Zip(Keys(p.overrides), values)), host);
    ExecutableKept(e, root, executable, argv, Assign(entries, map[]));
    NoEqualsAt(executable);
    assert ([executable] + argv)[1..] == argv;
    assert argv == e.argv;
    assert entries == Assignments(e.(overrides := Zip(Keys(e.overrides), values)), host);
    OverridesDetermined(e, values, host);
  }

  /** Necessity: an execution that is not replayable is already misread by the bare shell. */
  lemma UnreplayableIsLost(e: Execution, root: string)
    requires MakePortable(e, root).Ok? && FormatPortable(MakePortable(e, root).value).Ok?
    requires '$' !in root && Distinct(Keys(e.overrides))
    requires Replays(e, root, Bare(root))
    ensures Replayable(e, root)
  {
    ValuesKept(e, root);
    var p := MakePortable(e, root).value;
    hide Replays, TokenReplayable, TokenValue, ExecutableReplayable, PortableValue;
    forall i | 0 <= i < |e.argv| ensures TokenReplayable(e.argv[i], root) {
      if !TokenReplayable(e.argv[i], root) { TokenLost(e.argv[i], root); }
    }
    forall i | 0 <= i < |e.overrides| ensures TokenReplayable(Values(e.overrides)[i], root) {
      assert Values(p.overrides)[i] == p.overrides[i].1;
      if !TokenReplayable(Values(e.overrides)[i], root) { TokenLost(Values(e.overrides)[i], root); }
    }
  }

  /** The root is canonical but for a dot; its one component is an expansion of the root itself. */
  const DOLLAR: string := "${PWD}"
  const DOLLAR_ROOT: string := "/" + "." + "/" + DOLLAR

  lemma NormalSkips(stack: seq<string>, name: string, rest: seq<string>)
    requires AllPlain(stack) && Plain(name) && forall segment <- rest :: '/' !in segment
    ensures Normal(stack, ["", ".", name] + rest) == Normal(stack + [name], rest)
  {
    var all := ["", ".", name] + rest;
    assert all[1..] == [".", name] + rest && ([".", name] + rest)[1..] == [name] + rest && ([name] + rest)[1..] == rest;
    assert Normal(stack, all) == Normal(stack, [".", name] + rest) == Normal(stack, [name] + rest);
  }

  lemma DollarResolved()
    ensures Split(DOLLAR_ROOT) == ["", ".", DOLLAR] && Resolved(DOLLAR_ROOT) == [DOLLAR]
    ensures Resolved(DOLLAR_ROOT + "/" + DOLLAR_ROOT) == [DOLLAR, DOLLAR]
  {
    assert '/' !in DOLLAR && Plain(DOLLAR);
    hide DOLLAR;
    var segments := ["", ".", DOLLAR];
    assert segments[1..] == [".", DOLLAR] && [".", DOLLAR][1..] == [DOLLAR];
    assert Join([DOLLAR]) == DOLLAR && Join([".", DOLLAR]) == "." + "/" + DOLLAR;
    assert Join(segments) == "" + "/" + ("." + "/" + DOLLAR);
    assert Join(segments) == DOLLAR_ROOT;
    SplitJoin(segments);
    SplitConcat(DOLLAR_ROOT, DOLLAR_ROOT);
    hide Split, DOLLAR_ROOT;
    NormalSkips([], DOLLAR, []);
    NormalSkips([], DOLLAR, segments);
    NormalSkips([DOLLAR], DOLLAR, []);
    assert segments + [] == segments && [] + [DOLLAR] == [DOLLAR] && [DOLLAR] + [DOLLAR] == [DOLLAR, DOLLAR];
  }

  lemma DollarTail(vars: Shell.Vars)
    requires "PWD" in vars
    ensures TailValue(DOLLAR, vars) == Some(vars["PWD"])
  {
    PwdParameter("", vars);
    assert DOLLAR[0] == '$' && DOLLAR[1..] == "{PWD}" + "";
    assert Shell.Parameter(DOLLAR[1..], vars) == Some((vars["PWD"], ""));
    assert TailValue("", vars) == Some("") && vars["PWD"] + "" == vars["PWD"];
    hide Shell.Parameter;
  }

  /** With a dollar sign in the root a value can come back although it is not replayable: each half reads as the root. */
  lemma DollarRootKept()
    ensures var value := DOLLAR_ROOT + "/" + DOLLAR_ROOT;
            && PortableValue(value, DOLLAR_ROOT).Ok? && !TokenReplayable(value, DOLLAR_ROOT)
            && TokenValue(PortableValue(value, DOLLAR_ROOT).value, Bare(DOLLAR_ROOT)) == Some(value)
  {
    var root := DOLLAR_ROOT;
    var value := root + "/" + root;
    DollarResolved();
    DollarTail(Bare(root));
    assert root[0] == '/' && value[0] == '/' && |value| == 2 * |root| + 1;
    assert value[|root| + 1..] == root && value[..|root| + 1] == root + "/";
    hide Resolved, Split, DOLLAR, DOLLAR_ROOT, TailValue;
    assert [DOLLAR, DOLLAR][1..] == [DOLLAR] && [DOLLAR, DOLLAR][..1] == [DOLLAR];
    InsideMeansBelow(root, value);
    AbsoluteToken(value, root, Bare(root));
    assert !Plain(Split(root)[0]);
  }

  /** Exactly the replayable executions mean the same in every shell that stands in the root. */
  lemma ReplayableExactly(e: Execution, root: string)
    requires MakePortable(e, root).Ok? && FormatPortable(MakePortable(e, root).value).Ok?
    requires '$' !in root && Distinct(Keys(e.overrides))
    ensures Replayable(e, root) <==>
            forall host: Shell.Vars | "PWD" in host && host["PWD"] == root :: Replays(e, root, host)
  {
    if Replayable(e, root) {
      forall host: Shell.Vars | "PWD" in host && host["PWD"] == root
        ensures Replays(e, root, host)
      {
        ReplayPreservesMeaning(e, root, host);
      }
    }
    if Replays(e, root, Bare(root)) {
      UnreplayableIsLost(e, root);
    }
  }
}
