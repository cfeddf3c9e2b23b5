/**
 * ensureNewlines: the step lets users write a line break as the two
 * characters backslash and n, and expands each such escape to a newline
 * (strings.Replace(s, "\\n", "\n", -1)). main.go and
 * lib/slack/message_util.go declare the same one-line function.
 */
module Escapes {
  import opened GoStrings

  /** The two characters backslash and n, the escape the step expands. */
  const EscapedNewline: string := "\\n"

  /** s holds no backslash directly followed by n. */
  predicate NoEscapedNewline(s: string) {
    forall i :: 0 <= i < |s| - 1 ==> !(s[i] == '\\' && s[i + 1] == 'n')
  }

  /** The first character of the expansion of a non-empty string. */
  lemma ExpandHead(t: string)
    requires t != []
    ensures ReplaceAll(t, EscapedNewline, "\n") != []
    ensures ReplaceAll(t, EscapedNewline, "\n")[0] == if |t| >= 2 && t[..2] == EscapedNewline then '\n' else t[0]
  {
  }

  /** After expansion no escape is left. */
  lemma {:induction false} ExpandClears(s: string)
    ensures NoEscapedNewline(ReplaceAll(s, EscapedNewline, "\n"))
    decreases |s|
  {
    var r := ReplaceAll(s, EscapedNewline, "\n");
    if |s| < 2 {
    } else if s[..2] == EscapedNewline {
      ExpandClears(s[2..]);
    } else {
      var tail := ReplaceAll(s[1..], EscapedNewline, "\n");
      ExpandClears(s[1..]);
      ExpandHead(s[1..]);
      assert r == [s[0]] + tail;
      assert s[..2] == [s[0], s[1]];
      forall i | 0 <= i < |r| - 1
        ensures !(r[i] == '\\' && r[i + 1] == 'n')
      {
        if i > 0 {
          assert r[i] == tail[i - 1] && r[i + 1] == tail[i];
        }
      }
    }
  }

  /** Expansion leaves a string without escapes as it is. */
  lemma {:induction false} ExpandIdentity(s: string)
    requires NoEscapedNewline(s)
    ensures ReplaceAll(s, EscapedNewline, "\n") == s
    decreases |s|
  {
    if |s| >= 2 {
      assert s[..2] != EscapedNewline by {
        assert !(s[0] == '\\' && s[1] == 'n');
      }
      assert NoEscapedNewline(s[1..]) by {
        forall i | 0 <= i < |s[1..]| - 1
          ensures !(s[1..][i] == '\\' && s[1..][i + 1] == 'n')
        {
          assert s[1..][i] == s[i + 1] && s[1..][i + 1] == s[i + 2];
        }
      }
      ExpandIdentity(s[1..]);
      assert s == [s[0]] + s[1..];
    }
  }

  /** ensureNewlines(s): every backslash-n escape of s becomes a newline. */
  function EnsureNewlines(s: string): (r: string)
    ensures NoEscapedNewline(r)
    ensures NoEscapedNewline(s) ==> r == s
  {
    ExpandClears(s);
    if NoEscapedNewline(s) then ExpandIdentity(s); ReplaceAll(s, EscapedNewline, "\n")
    else ReplaceAll(s, EscapedNewline, "\n")
  }

  /** Expanding twice is expanding once. */
  lemma EnsureNewlinesIdempotent(s: string)
    ensures EnsureNewlines(EnsureNewlines(s)) == EnsureNewlines(s)
  {
  }

  /** Characters before the first backslash pass through unchanged. */
  lemma {:induction false} PlainPrefix(a: string, t: string)
    requires '\\' !in a
    ensures ReplaceAll(a + t, EscapedNewline, "\n") == a + ReplaceAll(t, EscapedNewline, "\n")
    decreases |a|
  {
    if a != [] {
      var s := a + t;
      if |s| >= 2 {
        assert s[..2][0] == a[0];
        assert s[1..] == a[1..] + t;
        PlainPrefix(a[1..], t);
        assert a == [a[0]] + a[1..];
      }
    } else {
      assert a + t == t;
    }
  }

  /** A string without backslashes is left as it is. */
  lemma NoBackslash(a: string)
    requires '\\' !in a
    ensures EnsureNewlines(a) == a
  {
    PlainPrefix(a, "");
    assert a + "" == a;
  }

  /**
   * An escape between two backslash-free strings becomes one newline
   * character: ensureNewlines("line1\\nline2") is "line1", a newline, "line2".
   */
  lemma EnsureNewlinesExpands(a: string, b: string)
    requires '\\' !in a && '\\' !in b
    ensures EnsureNewlines(a + "\\n" + b) == a + "\n" + b
  {
    var t := "\\n" + b;
    assert ReplaceAll(t, EscapedNewline, "\n") == "\n" + b by {
      assert t[..2] == EscapedNewline;
      assert t[2..] == b;
      NoBackslash(b);
    }
    assert a + "\\n" + b == a + t;
    PlainPrefix(a, t);
    assert a + "\n" + b == a + ("\n" + b);
  }
}
