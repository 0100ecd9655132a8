/**
 * The pure text transformations of the chat client:
 *  - Sanitize, the outgoing-message filter `re.sub(r'\n\n', '', msg)`;
 *  - NickFilter, the registration nickname filter `re.sub(r'(\\+n|\n|\\+)', '', name)`;
 *  - Strip, Python's `str.strip()` over a fixed whitespace set.
 */
module Text {

  // ---------------------------------------------------------------------------
  // Outgoing-message sanitiser
  // ---------------------------------------------------------------------------

  /** No two adjacent newline characters anywhere in `s`. */
  predicate NoDoubleNewline(s: string) {
    forall i | 0 <= i < |s| - 1 :: s[i] != '\n' || s[i + 1] != '\n'
  }

  /**
   * Removes the non-overlapping "\n\n" pairs of `s`, found scanning left to
   * right, as `re.sub` does. What is removed is a whole number of pairs, a
   * non-newline first character survives, and no pair is left behind.
   */
  function Sanitize(s: string): (r: string)
    ensures |r| <= |s| && (|s| - |r|) % 2 == 0
    ensures s != [] && s[0] != '\n' ==> r != [] && r[0] == s[0]
    ensures NoDoubleNewline(r)
    decreases |s|
  {
    if |s| >= 2 && s[0] == '\n' && s[1] == '\n' then Sanitize(s[2..])
    else if s == [] then []
    else [s[0]] + Sanitize(s[1..])
  }

  /** Sanitising changes nothing in a message that holds no "\n\n". */
  lemma {:induction false} SanitizeIdentity(s: string)
    requires NoDoubleNewline(s)
    ensures Sanitize(s) == s
    decreases |s|
  {
    if s != [] {
      assert NoDoubleNewline(s[1..]) by {
        forall i | 0 <= i < |s[1..]| - 1 ensures s[1..][i] != '\n' || s[1..][i + 1] != '\n' {
          assert s[1..][i] == s[i + 1] && s[1..][i + 1] == s[i + 2];
        }
      }
      SanitizeIdentity(s[1..]);
    }
  }

  /** Sanitising twice is sanitising once. */
  lemma SanitizeIdempotent(s: string)
    ensures Sanitize(Sanitize(s)) == Sanitize(s)
  {
    SanitizeIdentity(Sanitize(s));
  }

  /** The characters of `s` other than newlines, in order. */
  function WithoutNewlines(s: string): string
    decreases |s|
  {
    if s == [] then [] else (if s[0] == '\n' then [] else [s[0]]) + WithoutNewlines(s[1..])
  }

  /** Sanitising removes newlines only: every other character survives, in order. */
  lemma {:induction false} SanitizeKeepsText(s: string)
    ensures WithoutNewlines(Sanitize(s)) == WithoutNewlines(s)
    decreases |s|
  {
    if |s| >= 2 && s[0] == '\n' && s[1] == '\n' {
      SanitizeKeepsText(s[2..]);
      assert s[1..][1..] == s[2..];
    } else if s != [] {
      SanitizeKeepsText(s[1..]);
      assert ([s[0]] + Sanitize(s[1..]))[1..] == Sanitize(s[1..]);
    }
  }

  // ---------------------------------------------------------------------------
  // Registration nickname filter
  // ---------------------------------------------------------------------------

  /** Length of the run of backslashes that `s` starts with. */
  function BackslashRun(s: string): (k: nat)
    ensures k <= |s|
    ensures forall i | 0 <= i < k :: s[i] == '\\'
    ensures k == |s| || s[k] != '\\'
    decreases |s|
  {
    if s != [] && s[0] == '\\' then 1 + BackslashRun(s[1..]) else 0
  }

  /**
   * The regular expression `(\\+n|\n|\\+)` with every match replaced by
   * nothing. At each position the alternatives are tried in order: a run of
   * backslashes followed by 'n' (the whole run and the 'n' go), a newline, a
   * run of backslashes on its own; otherwise the character is kept and the
   * scan moves on by one.
   */
  function NickFilter(s: string): (r: string)
    ensures |r| <= |s|
    ensures forall i | 0 <= i < |r| :: r[i] != '\n' && r[i] != '\\'
    decreases |s|
  {
    if s == [] then []
    else if s[0] == '\\' then
      var k := BackslashRun(s);
      if k < |s| && s[k] == 'n' then NickFilter(s[k + 1..]) else NickFilter(s[k..])
    else if s[0] == '\n' then NickFilter(s[1..])
    else [s[0]] + NickFilter(s[1..])
  }

  /**
   * A character-at-a-time description of the same filter: backslashes and
   * newlines are dropped, and so is an 'n' that directly follows a backslash;
   * `afterBackslash` says whether the previous character was a backslash.
   */
  function Unescape(s: string, afterBackslash: bool): string
    decreases |s|
  {
    if s == [] then []
    else if s[0] == '\\' then Unescape(s[1..], true)
    else if s[0] == '\n' || (s[0] == 'n' && afterBackslash) then Unescape(s[1..], false)
    else [s[0]] + Unescape(s[1..], false)
  }

  /** Skipping a run of backslashes leaves the scan in the "after backslash" state. */
  lemma {:induction false} UnescapeRun(s: string, b: bool, k: nat)
    requires 0 < k <= |s|
    requires forall i | 0 <= i < k :: s[i] == '\\'
    ensures Unescape(s, b) == Unescape(s[k..], true)
    decreases k
  {
    if k > 1 {
      UnescapeRun(s[1..], true, k - 1);
      assert s[1..][k - 1..] == s[k..];
    }
  }

  /** The regular-expression filter and the character-at-a-time description agree. */
  lemma {:induction false} NickFilterIsUnescape(s: string)
    ensures NickFilter(s) == Unescape(s, false)
    decreases |s|
  {
    if s == [] {
    } else if s[0] == '\\' {
      var k := BackslashRun(s);
      UnescapeRun(s, false, k);
      if k < |s| && s[k] == 'n' {
        NickFilterIsUnescape(s[k + 1..]);
        assert s[k..][1..] == s[k + 1..];
      } else if k < |s| {
        NickFilterIsUnescape(s[k..]);
        assert s[k..][1..] == s[k + 1..];
      } else {
        assert s[k..] == [];
      }
    } else {
      NickFilterIsUnescape(s[1..]);
    }
  }

  /** A name with no backslash and no newline passes the filter unchanged. */
  lemma {:induction false} NickFilterIdentity(s: string)
    requires forall i | 0 <= i < |s| :: s[i] != '\n' && s[i] != '\\'
    ensures NickFilter(s) == s
    decreases |s|
  {
    if s != [] {
      NickFilterIdentity(s[1..]);
    }
  }

  /** `k` backslashes. */
  function Backslashes(k: nat): (r: string)
    ensures |r| == k && forall i | 0 <= i < k :: r[i] == '\\'
  {
    seq(k, _ => '\\')
  }

  /** A backslash run followed by 'n' is removed as a unit, the 'n' included. */
  lemma EscapedNewlineRemoved(k: nat, t: string)
    requires k > 0
    ensures NickFilter(Backslashes(k) + "n" + t) == NickFilter(t)
  {
    var s := Backslashes(k) + "n" + t;
    assert s[k] == 'n';
    assert BackslashRun(s) == k by {
      assert forall i | 0 <= i < k :: s[i] == '\\';
    }
    assert s[k + 1..] == t;
  }

  // ---------------------------------------------------------------------------
  // str.strip()
  // ---------------------------------------------------------------------------

  /**
   * The characters for which Python's `str.isspace()` holds, the set that
   * `str.strip()` removes: tab to carriage return, the four information
   * separators U+001C to U+001F, space, U+0085, U+00A0, U+1680, U+2000 to
   * U+200A, U+2028, U+2029, U+202F, U+205F and U+3000.
   */
  predicate IsSpace(c: char) {
    || '\t' <= c <= '\r'
    || '\U{1C}' <= c <= ' '
    || c == '\U{85}' || c == '\U{A0}' || c == '\U{1680}'
    || '\U{2000}' <= c <= '\U{200A}'
    || c == '\U{2028}' || c == '\U{2029}' || c == '\U{202F}' || c == '\U{205F}' || c == '\U{3000}'
  }

  /** The index of the first non-whitespace character of `s` at or after `i` (`|s|` if there is none). */
  function StripStart(s: string, i: nat): (k: nat)
    requires i <= |s|
    ensures i <= k <= |s|
    ensures forall j | i <= j < k :: IsSpace(s[j])
    ensures k == |s| || !IsSpace(s[k])
    decreases |s| - i
  {
    if i < |s| && IsSpace(s[i]) then StripStart(s, i + 1) else i
  }

  /** The end of `s[lo..j]` once its trailing whitespace is dropped. */
  function StripEnd(s: string, lo: nat, j: nat): (k: nat)
    requires lo <= j <= |s|
    ensures lo <= k <= j
    ensures forall m | k <= m < j :: IsSpace(s[m])
    ensures k == lo || !IsSpace(s[k - 1])
    decreases j
  {
    if j > lo && IsSpace(s[j - 1]) then StripEnd(s, lo, j - 1) else j
  }

  /**
   * `s` without leading and trailing whitespace: a contiguous part of `s`
   * that neither starts nor ends with whitespace, everything before and after
   * it being whitespace.
   */
  function Strip(s: string): (r: string)
    ensures |r| <= |s|
    ensures r == [] || (!IsSpace(r[0]) && !IsSpace(r[|r| - 1]))
    ensures var a := StripStart(s, 0);
      && a + |r| <= |s| && r == s[a..a + |r|]
      && (forall i | 0 <= i < a :: IsSpace(s[i]))
      && (forall i | a + |r| <= i < |s| :: IsSpace(s[i]))
  {
    var a := StripStart(s, 0);
    var b := StripEnd(s, a, |s|);
    s[a..b]
  }

  /** A string with no surrounding whitespace is its own strip. */
  lemma StripIdentity(s: string)
    requires s == [] || (!IsSpace(s[0]) && !IsSpace(s[|s| - 1]))
    ensures Strip(s) == s
  {
    if s != [] {
      assert StripStart(s, 0) == 0;
      assert StripEnd(s, 0, |s|) == |s|;
      assert s[0..|s|] == s;
    }
  }
}
