/** How the shell reads each token that the replay compiler prints. */
module ReplayTokens {
  import opened Common
  import opened NodePath
  import opened Replay
  import Shell = PosixShell

  function After(value: Option<string>, rest: string): Option<(string, string)>
  {
    match value
    case None => None
    case Some(word) => Some((word, rest))
  }

  /** `token` starts a word and, wherever that word ends, the shell reads it as `value`. */
  ghost predicate Reads(token: string, value: Option<string>, vars: Shell.Vars)
  {
    && token != "" && !Shell.Blank(token[0])
    && forall rest | Shell.WordEnds(rest) :: Shell.Word(token + rest, vars) == After(value, rest)
  }

  function Continue(piece: Option<(string, string)>, vars: Shell.Vars): Option<(string, string)>
  {
    match piece
    case None => None
    case Some((text, rest)) => Shell.Prepend(text, Shell.Word(rest, vars))
  }

  lemma PrependNothing(r: Option<(string, string)>)
    ensures Shell.Prepend("", r) == r
  {
    if r.Some? { assert "" + r.value.0 == r.value.0; }
  }

  lemma PrependTwice(a: string, b: string, r: Option<(string, string)>)
    ensures Shell.Prepend(a, Shell.Prepend(b, r)) == Shell.Prepend(a + b, r)
  {
    if r.Some? { assert a + (b + r.value.0) == a + b + r.value.0; }
  }

  // ---- unquoted and single-quoted text ----

  lemma {:induction false} BarePrefix(text: string, rest: string, vars: Shell.Vars)
    requires forall i :: 0 <= i < |text| ==> !Shell.Special(text[i])
    ensures Shell.Word(text + rest, vars) == Shell.Prepend(text, Shell.Word(rest, vars))
  {
    if text == "" {
      assert text + rest == rest;
      PrependNothing(Shell.Word(rest, vars));
    } else {
      var s := text + rest;
      assert s[0] == text[0] && s[1..] == text[1..] + rest;
      BarePrefix(text[1..], rest, vars);
      assert [text[0]] + text[1..] == text;
      PrependTwice([text[0]], text[1..], Shell.Word(rest, vars));
    }
  }

  lemma QuotedQuote(rest: string, vars: Shell.Vars)
    ensures Shell.Piece("\"'\"" + rest, vars) == Some(("'", rest))
  {
    var s := "\"'\"" + rest;
    assert s[0] == '\"' && s[1..] == "'\"" + rest;
    assert s[1..][1..] == "\"" + rest && ("\"" + rest)[1..] == rest;
    assert Shell.DoubleQuoted("\"" + rest, vars) == Some(("", rest));
    assert ['\''] + "" == "'";
  }

  /** A word that is one piece long. */
  lemma WordOfPiece(src: string, text: string, rest: string, vars: Shell.Vars)
    requires !Shell.WordEnds(src) && Shell.WordEnds(rest)
    requires Shell.Piece(src, vars) == Some((text, rest))
    ensures Shell.Word(src, vars) == Some((text, rest))
  {
    assert text + "" == text;
  }

  lemma ClosingQuote(rest: string, vars: Shell.Vars)
    requires Shell.WordEnds(rest)
    ensures Continue(Shell.SingleQuoted("'" + rest), vars) == Some(("", rest))
  {
    assert ("'" + rest)[1..] == rest;
    PrependNothing(Shell.Word(rest, vars));
  }

  /** The embedded `'"'"'` closes the quote, adds a quoted quote and opens again. */
  lemma {:induction false} SingleQuotedRest(text: string, rest: string, vars: Shell.Vars)
    requires Shell.WordEnds(rest)
    ensures Continue(Shell.SingleQuoted(QuoteSingle(text) + ("'" + rest)), vars) == Some((text, rest))
  {
    if text == "" {
      ClosingQuote(rest, vars);
      assert "" + ("'" + rest) == "'" + rest;
    } else {
      SingleQuotedRest(text[1..], rest, vars);
      var more := QuoteSingle(text[1..]) + ("'" + rest);
      var head := if text[0] == '\'' then "'\"'\"'" else [text[0]];
      QuoteStep(text);
      hide *;
      Regroup(head, QuoteSingle(text[1..]), "'" + rest);
      assert text == [text[0]] + text[1..];
      if text[0] == '\'' {
        ApostropheRest(text[1..], rest, more, vars);
      } else {
        OrdinaryRest(text[0], text[1..], rest, more, vars);
      }
    }
  }

  lemma QuoteStep(text: string)
    requires text != ""
    ensures QuoteSingle(text) == (if text[0] == '\'' then "'\"'\"'" else [text[0]]) + QuoteSingle(text[1..])
  {
  }

  lemma OrdinaryRest(c: char, text: string, rest: string, more: string, vars: Shell.Vars)
    requires c != '\'' && Continue(Shell.SingleQuoted(more), vars) == Some((text, rest))
    ensures Continue(Shell.SingleQuoted([c] + more), vars) == Some(([c] + text, rest))
  {
    var s := [c] + more;
    assert s[0] == c && s[1..] == more;
    match Shell.SingleQuoted(more)
    case None =>
    case Some((t, r)) => PrependTwice([c], t, Shell.Word(r, vars));
  }

  lemma ApostropheRest(text: string, rest: string, more: string, vars: Shell.Vars)
    requires Continue(Shell.SingleQuoted(more), vars) == Some((text, rest))
    ensures Continue(Shell.SingleQuoted("'\"'\"'" + more), vars) == Some(("'" + text, rest))
  {
    var s, single := "'\"'\"'" + more, "'" + more;
    assert single[1..] == more;
    QuotedQuote(single, vars);
    var quoted := "\"'\"" + single;
    assert s[0] == '\'' && s[1..] == quoted;
    assert Shell.Word(single, vars) == Some((text, rest));
    assert Shell.Word(quoted, vars) == Some(("'" + text, rest));
    PrependNothing(Shell.Word(quoted, vars));
  }

  // ---- double-quoted text ----

  function EscapedChar(c: char): string
  {
    if c == '\\' then "\\\\" else if c == '\"' then "\\\"" else [c]
  }

  lemma {:induction false} ReplaceAllConcat(a: string, b: string, c: char, replacement: string)
    ensures ReplaceAll(a + b, c, replacement) == ReplaceAll(a, c, replacement) + ReplaceAll(b, c, replacement)
  {
    if a == "" {
      assert a + b == b;
    } else {
      assert (a + b)[0] == a[0] && (a + b)[1..] == a[1..] + b;
      ReplaceAllConcat(a[1..], b, c, replacement);
    }
  }

  lemma EscapeStep(text: string)
    requires text != ""
    ensures EscapeDouble(text) == EscapedChar(text[0]) + EscapeDouble(text[1..])
  {
    var c := text[0];
    var head := if c == '\\' then "\\\\" else [c];
    ReplaceAllConcat(head, ReplaceAll(text[1..], '\\', "\\\\"), '\"', "\\\"");
    assert ReplaceAll(head, '\"', "\\\"") == EscapedChar(c) by {
      if c == '\\' {
        assert head[1..] == "\\" && head[1..][1..] == "";
        assert ReplaceAll("\\", '\"', "\\\"") == "\\";
      } else {
        assert head[1..] == "";
      }
    }
  }

  lemma PlainEscape(c: char)
    requires Shell.NameChar(c)
    ensures EscapedChar(c) == [c]
  {
  }

  lemma {:induction false} EscapeNamePrefix(text: string, n: nat)
    requires n <= |text| && forall i :: 0 <= i < n ==> Shell.NameChar(text[i])
    ensures EscapeDouble(text) == text[..n] + EscapeDouble(text[n..])
  {
    if n > 0 {
      EscapeStep(text);
      PlainEscape(text[0]);
      hide *;
      EscapeNamePrefix(text[1..], n - 1);
      Regroup([text[0]], text[1..n], EscapeDouble(text[n..]));
      assert text[1..][..n - 1] == text[1..n] && text[1..][n - 1..] == text[n..];
      assert text[..n] == [text[0]] + text[1..n];
    }
  }

  lemma {:induction false} NameTailIs(src: string, n: nat)
    requires n <= |src| && forall i :: 0 <= i < n ==> Shell.NameChar(src[i])
    requires n < |src| ==> !Shell.NameChar(src[n])
    ensures Shell.NameTail(src) == n
  {
    if n > 0 {
      NameTailIs(src[1..], n - 1);
    }
  }

  /** A name of this length, then the rest: how `Parameter` divides its input. */
  lemma ParameterParts(name: string, rest: string, vars: Shell.Vars)
    requires Shell.NameLength(name) == |name|
    requires rest != "" && !Shell.NameChar(rest[0])
    ensures Shell.Parameter("{" + name + rest, vars) ==
            if name == "" then None
            else if rest[0] == '}' then Some((Shell.Lookup(vars, name), rest[1..]))
            else if |rest| >= 2 && rest[0] == '-' && rest[1] == '}' then Some((Shell.Lookup(vars, name), rest[2..]))
            else None
  {
    var s := "{" + name + rest;
    assert s[1..] == name + rest;
    assert (name + rest)[|name|] == rest[0];
    if name != "" {
      NameTailIs((name + rest)[1..], |name| - 1);
    } else {
      assert name + rest == rest;
    }
    assert (name + rest)[..|name|] == name && (name + rest)[|name|..] == rest;
  }

  lemma NameOfPrefix(text: string)
    ensures Shell.NameLength(text[..Shell.NameLength(text)]) == Shell.NameLength(text)
  {
    var n := Shell.NameLength(text);
    if n > 0 {
      NameTailIs(text[..n][1..], n - 1);
    }
  }

  /** Escaping does not change which parameter a dollar sign introduces. */
  lemma ParameterEscaped(text: string, rest: string, vars: Shell.Vars)
    ensures Shell.Parameter(EscapeDouble(text) + "\"" + rest, vars) ==
            match Shell.Parameter(text, vars)
            case None => None
            case Some((value, more)) => Some((value, EscapeDouble(more) + "\"" + rest))
  {
    var s := EscapeDouble(text) + "\"" + rest;
    if text == "" {
      assert s[0] == '\"';
    } else {
      EscapeStep(text);
      if text[0] == '{' {
        BraceEscaped(text[1..], rest, vars);
        assert s == "{" + (EscapeDouble(text[1..]) + "\"" + rest);
        assert text == "{" + text[1..];
      } else {
        assert s[0] == EscapedChar(text[0])[0];
      }
    }
  }

  lemma BraceEscaped(inner: string, rest: string, vars: Shell.Vars)
    ensures Shell.Parameter("{" + (EscapeDouble(inner) + "\"" + rest), vars) ==
            match Shell.Parameter("{" + inner, vars)
            case None => None
            case Some((value, more)) => Some((value, EscapeDouble(more) + "\"" + rest))
  {
    var n := Shell.NameLength(inner);
    assert ("{" + inner)[1..] == inner;
    if n == 0 {
      var out := EscapeDouble(inner) + "\"" + rest;
      if inner != "" { EscapeStep(inner); }
      assert ("{" + out)[1..] == out && !Shell.NameStart(out[0]);
    } else {
      var name, tail := inner[..n], inner[n..];
      EscapeNamePrefix(inner, n);
      NameOfPrefix(inner);
      var out := EscapeDouble(tail) + "\"" + rest;
      assert "{" + (EscapeDouble(inner) + "\"" + rest) == "{" + name + out;
      EscapedTail(tail, rest);
      ParameterParts(name, out, vars);
    }
  }

  /** The closing brace, or the dash and the closing brace, survive escaping and nothing else imitates them. */
  lemma EscapedTail(tail: string, rest: string)
    requires tail == "" || !Shell.NameChar(tail[0])
    ensures var out := EscapeDouble(tail) + "\"" + rest;
            && !Shell.NameChar(out[0])
            && (out[0] == '}' <==> tail != "" && tail[0] == '}')
            && (tail != "" && tail[0] == '}' ==> out[1..] == EscapeDouble(tail[1..]) + "\"" + rest)
            && (|out| >= 2 && out[0] == '-' && out[1] == '}' <==> |tail| >= 2 && tail[0] == '-' && tail[1] == '}')
            && (|tail| >= 2 && tail[0] == '-' && tail[1] == '}' ==> out[2..] == EscapeDouble(tail[2..]) + "\"" + rest)
  {
    var out := EscapeDouble(tail) + "\"" + rest;
    if tail == "" {
      assert out[0] == '\"';
    } else {
      EscapeStep(tail);
      var after := tail[1..];
      var more := EscapeDouble(after) + "\"" + rest;
      assert out == EscapedChar(tail[0]) + more;
      if tail[0] == '-' || tail[0] == '}' {
        assert out[1..] == more;
        if after != "" {
          EscapeStep(after);
          assert out[1] == more[0] == EscapedChar(after[0])[0];
          if after[0] == '}' {
            assert out[2..] == more[1..] == EscapeDouble(after[1..]) + "\"" + rest;
            assert tail[2..] == after[1..];
          }
        } else {
          assert out[1] == '\"';
        }
      }
    }
  }

  /** What the double-quoted tail of a `$PWD` token becomes, read off the unescaped text. */
  function TailValue(text: string, vars: Shell.Vars): Option<string>
    decreases |text|
  {
    if text == "" then Some("")
    else if text[0] == '`' then None
    else if text[0] == '$' then
      match Shell.Parameter(text[1..], vars)
      case None => None
      case Some((value, rest)) => Glue(value, TailValue(rest, vars))
    else Glue([text[0]], TailValue(text[1..], vars))
  }

  function Glue(head: string, tail: Option<string>): Option<string>
  {
    match tail
    case None => None
    case Some(t) => Some(head + t)
  }

  lemma {:induction false} DoubleQuotedTail(text: string, rest: string, vars: Shell.Vars)
    ensures Shell.DoubleQuoted(EscapeDouble(text) + "\"" + rest, vars) == After(TailValue(text, vars), rest)
    decreases |text|
  {
    var s := EscapeDouble(text) + "\"" + rest;
    if text == "" {
      assert s == "\"" + rest && s[1..] == rest;
    } else {
      EscapeStep(text);
      var more := EscapeDouble(text[1..]) + "\"" + rest;
      assert s == EscapedChar(text[0]) + more;
      hide EscapeDouble, Shell.Parameter;
      if text[0] == '$' {
        assert s[1..] == more;
        ParameterEscaped(text[1..], rest, vars);
        match Shell.Parameter(text[1..], vars)
        case None =>
        case Some((value, after)) => DoubleQuotedTail(after, rest, vars);
      } else {
        DoubleQuotedTail(text[1..], rest, vars);
        CharQuoted(text[0], more, vars);
      }
    }
  }

  lemma CharQuoted(c: char, more: string, vars: Shell.Vars)
    requires c != '$'
    ensures Shell.DoubleQuoted(EscapedChar(c) + more, vars) ==
            if c == '`' then None else Shell.Prepend([c], Shell.DoubleQuoted(more, vars))
  {
    hide Shell.Parameter;
    var s := EscapedChar(c) + more;
    if c == '\\' || c == '\"' {
      assert s[0] == '\\' && s[1] == c && s[2..] == more;
    } else {
      assert s[0] == c && s[1..] == more;
    }
  }

  // ---- tokens ----

  function TokenValue(text: string, vars: Shell.Vars): Option<string>
  {
    if PwdRelative(text) then Glue(Shell.Lookup(vars, "PWD"), TailValue(text[4..], vars)) else Some(text)
  }

  lemma {:induction false} PwdParameter(rest: string, vars: Shell.Vars)
    ensures Shell.Parameter("{PWD}" + rest, vars) == Some((Shell.Lookup(vars, "PWD"), rest))
  {
    var s := "{PWD}" + rest;
    var inner := s[1..];
    assert inner[0] == 'P' && inner[1] == 'W' && inner[2] == 'D' && inner[3] == '}';
    NameTailIs(inner[1..], 2);
    assert inner[..3] == "PWD";
    assert inner[3..][1..] == rest;
  }

  lemma PwdTokenReads(tail: string, rest: string, vars: Shell.Vars)
    requires Shell.WordEnds(rest)
    ensures Shell.Word("\"${PWD}" + EscapeDouble(tail) + "\"" + rest, vars) ==
            After(Glue(Shell.Lookup(vars, "PWD"), TailValue(tail, vars)), rest)
  {
    var s := "\"${PWD}" + EscapeDouble(tail) + "\"" + rest;
    var out := EscapeDouble(tail) + "\"" + rest;
    var inner := "${PWD}" + out;
    assert s == "\"" + inner && s[1..] == inner;
    assert inner == "$" + ("{PWD}" + out) && inner[1..] == "{PWD}" + out;
    PwdParameter(out, vars);
    DoubleQuotedTail(tail, rest, vars);
    PwdQuoted(out, rest, TailValue(tail, vars), vars);
    OpenQuote(inner, vars);
    hide Shell.Piece, Shell.DoubleQuoted, EscapeDouble, TailValue, Shell.Lookup;
    match TailValue(tail, vars)
    case None =>
    case Some(t) => WordOfPiece(s, Shell.Lookup(vars, "PWD") + t, rest, vars);
  }

  lemma PwdQuoted(out: string, rest: string, tail: Option<string>, vars: Shell.Vars)
    requires Shell.DoubleQuoted(out, vars) == After(tail, rest)
    ensures Shell.DoubleQuoted("$" + ("{PWD}" + out), vars) == After(Glue(Shell.Lookup(vars, "PWD"), tail), rest)
  {
    PwdParameter(out, vars);
    hide Shell.Parameter, Shell.Lookup;
    var src := "$" + ("{PWD}" + out);
    assert src[0] == '$' && src[1..] == "{PWD}" + out;
  }

  lemma QuotedTokenReads(text: string, rest: string, vars: Shell.Vars)
    requires Shell.WordEnds(rest)
    ensures Shell.Word("'" + QuoteSingle(text) + "'" + rest, vars) == Some((text, rest))
  {
    var s := "'" + QuoteSingle(text) + "'" + rest;
    assert s[1..] == QuoteSingle(text) + ("'" + rest);
    SingleQuotedRest(text, rest, vars);
  }

  lemma BareTokenReads(text: string, rest: string, vars: Shell.Vars)
    requires Shell.WordEnds(rest) && BareToken(text)
    ensures Shell.Word(text + rest, vars) == Some((text, rest))
  {
    BarePrefix(text, rest, vars);
    assert text + "" == text;
  }

  /** The shell reads a printed token as its value, whatever the characters in the text. */
  lemma TokenReads(text: string, vars: Shell.Vars)
    ensures Reads(ShellToken(text), TokenValue(text, vars), vars)
  {
    forall rest | Shell.WordEnds(rest)
      ensures Shell.Word(ShellToken(text) + rest, vars) == After(TokenValue(text, vars), rest)
    {
      if PwdRelative(text) {
        PwdTokenReads(text[4..], rest, vars);
      } else if BareToken(text) {
        BareTokenReads(text, rest, vars);
      } else {
        QuotedTokenReads(text, rest, vars);
      }
    }
  }

  /** A `NAME=` prefix joins the word that follows it. */
  lemma AssignmentReads(key: string, token: string, value: Option<string>, vars: Shell.Vars)
    requires key != "" && forall i :: 0 <= i < |key| ==> Shell.NameChar(key[i])
    requires Reads(token, value, vars)
    ensures Reads(key + "=" + token, Glue(key + "=", value), vars)
  {
    forall rest | Shell.WordEnds(rest)
      ensures Shell.Word(key + "=" + token + rest, vars) == After(Glue(key + "=", value), rest)
    {
      assert key + "=" + token + rest == (key + "=") + (token + rest);
      BarePrefix(key + "=", token + rest, vars);
      assert Shell.Word(token + rest, vars) == After(value, rest);
    }
    assert (key + "=" + token)[0] == key[0];
  }

  lemma DefaultParameter(key: string, rest: string, vars: Shell.Vars)
    requires InheritedKey(key)
    ensures Shell.Parameter("{" + key + "-}\"" + rest, vars) == Some((Shell.Lookup(vars, key), "\"" + rest))
  {
    hide Shell.Parameter, Shell.Lookup;
    var out := "-}\"" + rest;
    assert forall i :: 0 <= i < |key| ==> key[i] in key;
    NameTailIs(key[1..], |key| - 1);
    ParameterParts(key, out, vars);
    assert "{" + key + "-}\"" + rest == "{" + key + out;
    assert out[2..] == "\"" + rest;
  }

  lemma DefaultReads(key: string, rest: string, vars: Shell.Vars)
    requires InheritedKey(key) && Shell.WordEnds(rest)
    ensures Shell.Word("\"${" + key + "-}\"" + rest, vars) == Some((Shell.Lookup(vars, key), rest))
  {
    var s := "\"${" + key + "-}\"" + rest;
    var brace := "{" + key + "-}\"" + rest;
    assert s == "\"" + ("$" + brace);
    DefaultParameter(key, rest, vars);
    hide *;
    var value := Shell.Lookup(vars, key);
    OneParameter(brace, value, rest, vars);
    OpenQuote("$" + brace, vars);
    WordOfPiece(s, value, rest, vars);
  }

  /** A parameter that is all there is between double quotes. */
  lemma OneParameter(src: string, value: string, rest: string, vars: Shell.Vars)
    requires Shell.Parameter(src, vars) == Some((value, "\"" + rest))
    ensures Shell.DoubleQuoted("$" + src, vars) == Some((value, rest))
  {
    hide Shell.Parameter;
    assert ("$" + src)[1..] == src && ("\"" + rest)[1..] == rest;
    assert Shell.DoubleQuoted("\"" + rest, vars) == Some(("", rest));
    assert value + "" == value;
  }

  lemma OpenQuote(src: string, vars: Shell.Vars)
    ensures !Shell.WordEnds("\"" + src)
    ensures Shell.Piece("\"" + src, vars) == Shell.DoubleQuoted(src, vars)
  {
    hide Shell.DoubleQuoted, Shell.SingleQuoted;
    assert ("\"" + src)[1..] == src;
  }

  lemma InheritedReads(key: string, vars: Shell.Vars)
    requires InheritedKey(key)
    ensures Reads(InheritedToken(key), Some(key + "=" + Shell.Lookup(vars, key)), vars)
  {
    var token := "\"${" + key + "-}\"";
    forall rest | Shell.WordEnds(rest)
      ensures Shell.Word(token + rest, vars) == After(Some(Shell.Lookup(vars, key)), rest)
    {
      DefaultReads(key, rest, vars);
    }
    assert forall i :: 0 <= i < |key| ==> key[i] in key;
    AssignmentReads(key, token, Some(Shell.Lookup(vars, key)), vars);
    assert key + "=" + token == InheritedToken(key);
  }

  // ---- command lines ----

  function AllSome(values: seq<Option<string>>): (r: Option<seq<string>>)
    ensures r.Some? ==> |r.value| == |values| && forall i :: 0 <= i < |values| ==> values[i] == Some(r.value[i])
    ensures r.None? ==> exists i :: 0 <= i < |values| && values[i] == None
  {
    if values == [] then Some([])
    else if values[0].None? then None
    else
      match AllSome(values[1..])
      case None => None
      case Some(more) => Some([values[0].value] + more)
  }

  lemma {:induction false} FieldsOfTokens(tokens: seq<string>, values: seq<Option<string>>, vars: Shell.Vars)
    requires |tokens| == |values|
    requires forall i :: 0 <= i < |tokens| ==> Reads(tokens[i], values[i], vars)
    ensures Shell.Fields(JoinSpace(tokens), vars) == AllSome(values)
  {
    if tokens != [] {
      FieldsOfTokens(tokens[1..], values[1..], vars);
      assert Reads(tokens[0], values[0], vars);
      var text := JoinSpace(tokens);
      if |tokens| == 1 {
        assert Shell.WordEnds("");
        assert text == tokens[0] + "";
        assert values[1..] == [];
      } else {
        var rest := " " + JoinSpace(tokens[1..]);
        assert Shell.WordEnds(rest) && rest[1..] == JoinSpace(tokens[1..]);
        assert text == tokens[0] + rest;
      }
    }
  }
}
