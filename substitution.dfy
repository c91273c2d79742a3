/** The textual substitutions both configuration loaders apply to the raw
    file text before it is parsed (src/config.py:30-36 and 74-80). */
module Substitution {

  /** Python's `s.replace(pattern, replacement)` for a non-empty pattern:
      every non-overlapping occurrence, found scanning from the left, is
      replaced. */
  function Replace(s: string, pattern: string, replacement: string): string
    requires pattern != []
    decreases |s|
  {
    if |s| < |pattern| then s
    else if s[..|pattern|] == pattern then replacement + Replace(s[|pattern|..], pattern, replacement)
    else [s[0]] + Replace(s[1..], pattern, replacement)
  }

  /** Python's `s.count(pattern)`: the number of occurrences `Replace`
      replaces. */
  function Count(s: string, pattern: string): nat
    requires pattern != []
    decreases |s|
  {
    if |s| < |pattern| then 0
    else if s[..|pattern|] == pattern then 1 + Count(s[|pattern|..], pattern)
    else Count(s[1..], pattern)
  }

  /** Each replaced occurrence changes the length by the difference of the
      two strings' lengths. */
  lemma {:induction false} ReplaceLength(s: string, pattern: string, replacement: string)
    requires pattern != []
    ensures |Replace(s, pattern, replacement)| == |s| + Count(s, pattern) * (|replacement| - |pattern|)
    decreases |s|
  {
    if |s| < |pattern| {
    } else if s[..|pattern|] == pattern {
      var rest := s[|pattern|..];
      ReplaceLength(rest, pattern, replacement);
      var c, d := Count(rest, pattern), |replacement| - |pattern|;
      assert Count(s, pattern) == 1 + c;
      assert |Replace(s, pattern, replacement)| == |replacement| + |rest| + c * d;
      assert |s| == |pattern| + |rest|;
      MulDistributes(c, d);
    } else {
      ReplaceLength(s[1..], pattern, replacement);
      assert Count(s, pattern) == Count(s[1..], pattern);
    }
  }

  lemma MulDistributes(c: int, d: int)
    ensures (1 + c) * d == d + c * d
  {
  }

  /** A text with no occurrence of the pattern is returned unchanged. */
  lemma {:induction false} ReplaceNothing(s: string, pattern: string, replacement: string)
    requires pattern != []
    requires Count(s, pattern) == 0
    ensures Replace(s, pattern, replacement) == s
    decreases |s|
  {
    if |s| >= |pattern| {
      ReplaceNothing(s[1..], pattern, replacement);
    }
  }

  /** A text lacking some character of the pattern holds no occurrence. */
  lemma {:induction false} CountMissingChar(s: string, pattern: string, c: char)
    requires pattern != []
    requires c in pattern && c !in s
    ensures Count(s, pattern) == 0
    decreases |s|
  {
    if |s| >= |pattern| {
      assert s[..|pattern|] != pattern by {
        assert c !in s[..|pattern|];
      }
      CountMissingChar(s[1..], pattern, c);
    }
  }

  /** The values the loaders substitute: `os.getenv("HOME")`, the login
      name, `os.getcwd()` and `os.path.expanduser("~/.kak-debug/adapters")`. */
  datatype Env = Env(home: string, user: string, curDir: string, adapterDir: string)

  /** The five replacements, in the order the loaders apply them. */
  function Steps(env: Env): seq<(string, string)> {
    [("${HOME}", env.home),
     ("${USER}", env.user),
     ("${CUR_DIR}", env.curDir),
     ("${ADAPTER_DIR}", env.adapterDir),
     ("$$", "$")]
  }

  /** Applies replacement steps one after the other, left to right. */
  function ApplySteps(s: string, steps: seq<(string, string)>): string
    requires forall k :: 0 <= k < |steps| ==> steps[k].0 != []
    decreases |steps|
  {
    if |steps| == 0 then s
    else ApplySteps(Replace(s, steps[0].0, steps[0].1), steps[1..])
  }

  /** `$$` is the literal-dollar escape; collapsing it is the last step. */
  function CollapseDollars(s: string): string {
    Replace(s, "$$", "$")
  }

  /** The substitution chain both loaders run over the raw file text. */
  function Substitute(text: string, env: Env): string {
    var s1 := Replace(text, "${HOME}", env.home);
    var s2 := Replace(s1, "${USER}", env.user);
    var s3 := Replace(s2, "${CUR_DIR}", env.curDir);
    var s4 := Replace(s3, "${ADAPTER_DIR}", env.adapterDir);
    CollapseDollars(s4)
  }

  /** The chain is exactly the five steps of `Steps`, in that order: the
      four variables first, the `$$` collapse last. */
  lemma SubstituteIsSteps(text: string, env: Env)
    ensures Substitute(text, env) == ApplySteps(text, Steps(env))
  {
    var st := Steps(env);
    var s1 := Replace(text, "${HOME}", env.home);
    var s2 := Replace(s1, "${USER}", env.user);
    var s3 := Replace(s2, "${CUR_DIR}", env.curDir);
    var s4 := Replace(s3, "${ADAPTER_DIR}", env.adapterDir);
    assert ApplySteps(s4, st[4..]) == CollapseDollars(s4) by {
      assert st[4..][1..] == [];
    }
    assert ApplySteps(s3, st[3..]) == ApplySteps(s4, st[4..]) by {
      assert st[3..][1..] == st[4..];
    }
    assert ApplySteps(s2, st[2..]) == ApplySteps(s3, st[3..]) by {
      assert st[2..][1..] == st[3..];
    }
    assert ApplySteps(s1, st[1..]) == ApplySteps(s2, st[2..]) by {
      assert st[1..][1..] == st[2..];
    }
  }

  /** A text without `$` passes through the whole chain unchanged, since
      every pattern starts with `$`. */
  lemma NoDollarUnchanged(text: string, env: Env)
    requires '$' !in text
    ensures Substitute(text, env) == text
  {
    CountMissingChar(text, "${HOME}", '$');
    ReplaceNothing(text, "${HOME}", env.home);
    CountMissingChar(text, "${USER}", '$');
    ReplaceNothing(text, "${USER}", env.user);
    CountMissingChar(text, "${CUR_DIR}", '$');
    ReplaceNothing(text, "${CUR_DIR}", env.curDir);
    CountMissingChar(text, "${ADAPTER_DIR}", '$');
    ReplaceNothing(text, "${ADAPTER_DIR}", env.adapterDir);
    CountMissingChar(text, "$$", '$');
    ReplaceNothing(text, "$$", "$");
  }

  /** The collapse shortens the text by one character per non-overlapping
      `$$`. */
  lemma CollapseLength(s: string)
    ensures |CollapseDollars(s)| == |s| - Count(s, "$$")
  {
    ReplaceLength(s, "$$", "$");
  }

  /** `$$$$` holds two non-overlapping `$$` and becomes `$$`. */
  lemma FourDollarsBecomeTwo(env: Env)
    ensures Substitute("$$$$", env) == "$$"
  {
    assert Replace("$$", "$$", "$") == "$" + Replace("", "$$", "$");
    assert Replace("$$$$", "$$", "$") == "$" + Replace("$$", "$$", "$");
  }

  /** Doubling every `$`, the way a literal dollar is written in a
      configuration file. */
  function EscapeDollars(s: string): string {
    Replace(s, "$", "$$")
  }

  /** The collapse undoes the escape. */
  lemma {:induction false} CollapseEscape(s: string)
    ensures CollapseDollars(EscapeDollars(s)) == s
    decreases |s|
  {
    if s != [] {
      CollapseEscape(s[1..]);
      var rest := EscapeDollars(s[1..]);
      if s[0] == '$' {
        assert EscapeDollars(s) == "$$" + rest;
        assert ("$$" + rest)[..2] == "$$" && ("$$" + rest)[2..] == rest;
        assert CollapseDollars("$$" + rest) == "$" + CollapseDollars(rest);
      } else {
        assert s[..1] != "$";
        assert EscapeDollars(s) == [s[0]] + rest;
        assert ([s[0]] + rest)[1..] == rest;
        if |[s[0]] + rest| >= 2 {
          assert ([s[0]] + rest)[..2] != "$$";
        }
        assert CollapseDollars([s[0]] + rest) == [s[0]] + CollapseDollars(rest);
      }
    }
  }

  /** An escaped text without `{` survives the whole chain: no variable
      pattern can occur in it, and the collapse restores it. */
  lemma EscapedTextSurvives(s: string, env: Env)
    requires '{' !in s
    ensures Substitute(EscapeDollars(s), env) == s
  {
    var e := EscapeDollars(s);
    assert '{' !in e by {
      EscapeKeepsOtherChars(s, '{');
    }
    CountMissingChar(e, "${HOME}", '{');
    ReplaceNothing(e, "${HOME}", env.home);
    CountMissingChar(e, "${USER}", '{');
    ReplaceNothing(e, "${USER}", env.user);
    CountMissingChar(e, "${CUR_DIR}", '{');
    ReplaceNothing(e, "${CUR_DIR}", env.curDir);
    CountMissingChar(e, "${ADAPTER_DIR}", '{');
    ReplaceNothing(e, "${ADAPTER_DIR}", env.adapterDir);
    CollapseEscape(s);
  }

  /** Escaping introduces no character other than `$`. */
  lemma {:induction false} EscapeKeepsOtherChars(s: string, c: char)
    requires c != '$' && c !in s
    ensures c !in EscapeDollars(s)
    decreases |s|
  {
    if s != [] {
      EscapeKeepsOtherChars(s[1..], c);
    }
  }

  /** Because the variables go first, the escape does not protect a
      placeholder: `$${HOME}` yields `$` followed by the home directory,
      not the literal text `${HOME}`. */
  lemma EscapedPlaceholderStillExpands()
    ensures Substitute("$${HOME}", Env("/home/u", "u", "/w", "/a")) == "$/home/u"
  {
    var env := Env("/home/u", "u", "/w", "/a");
    HomeAfterDollar();
    BracelessSkipsLaterVariables("$/home/u", env);
    SingleDollarKept();
  }

  /** A text without `{` holds none of the USER, CUR_DIR and ADAPTER_DIR
      placeholders, so those three steps leave it alone. */
  lemma BracelessSkipsLaterVariables(s: string, env: Env)
    requires '{' !in s
    ensures Replace(Replace(Replace(s, "${USER}", env.user), "${CUR_DIR}", env.curDir), "${ADAPTER_DIR}", env.adapterDir) == s
  {
    CountMissingChar(s, "${USER}", '{');
    ReplaceNothing(s, "${USER}", env.user);
    CountMissingChar(s, "${CUR_DIR}", '{');
    ReplaceNothing(s, "${CUR_DIR}", env.curDir);
    CountMissingChar(s, "${ADAPTER_DIR}", '{');
    ReplaceNothing(s, "${ADAPTER_DIR}", env.adapterDir);
  }

  lemma SingleDollarKept()
    ensures CollapseDollars("$/home/u") == "$/home/u"
  {
    var t := "$/home/u";
    assert t[1..] == "/home/u";
    assert t[..2] == "$/";
    CountMissingChar("/home/u", "$$", '$');
    ReplaceNothing("/home/u", "$$", "$");
    assert Replace(t, "$$", "$") == [t[0]] + Replace(t[1..], "$$", "$");
  }

  lemma HomeAfterDollar()
    ensures Replace("$${HOME}", "${HOME}", "/home/u") == "$/home/u"
  {
    var t := "$${HOME}";
    assert t[..7][1] == '$' && "${HOME}"[1] == '{';
    assert t[1..][..7] == "${HOME}";
    assert Replace(t[1..][7..], "${HOME}", "/home/u") == "";
  }

  /** Because HOME goes before USER, a home directory that itself contains
      `${USER}` is expanded again by the next step. */
  lemma LaterStepsSeeEarlierValues()
    ensures Substitute("${HOME}", Env("${USER}", "u", "/w", "/a")) == "u"
  {
    assert Replace("${HOME}", "${HOME}", "${USER}") == "${USER}" + Replace("", "${HOME}", "${USER}");
    assert Replace("${USER}", "${USER}", "u") == "u" + Replace("", "${USER}", "u");
  }
}
