/**
 * The string operations the search and the search box use:
 * `toLowerCase`, `includes` and `trim`.
 */
module Text {

  /**
   * `toLowerCase` on one character. Only the ASCII letters are mapped;
   * every other character is left as it is.
   */
  function LowerChar(c: char): (r: char)
    ensures !('A' <= r <= 'Z')
    ensures !('A' <= c <= 'Z') ==> r == c
    ensures 'A' <= c <= 'Z' ==> r as int == c as int + 32
  {
    if 'A' <= c <= 'Z' then (c as int + 32) as char else c
  }

  /** `s.toLowerCase()`, character by character. */
  function Lower(s: string): (r: string)
    ensures |r| == |s|
    ensures forall i :: 0 <= i < |s| ==> r[i] == LowerChar(s[i])
  {
    seq(|s|, i requires 0 <= i < |s| => LowerChar(s[i]))
  }

  /** Lower-casing twice changes nothing more. */
  lemma LowerIdempotent(s: string)
    ensures Lower(Lower(s)) == Lower(s)
  {
  }

  /** A copy of `q` starts at offset `i` of `s`. */
  predicate OccursAt(s: string, q: string, i: int)
  {
    0 <= i && i + |q| <= |s| && s[i..i + |q|] == q
  }

  /** `s.includes(q)`: some offset of `s` starts a copy of `q`. */
  predicate Includes(s: string, q: string)
  {
    exists i | 0 <= i <= |s| - |q| :: OccursAt(s, q, i)
  }

  /** Every string includes the empty string (at offset 0). */
  lemma IncludesEmpty(s: string)
    ensures Includes(s, "")
  {
    assert OccursAt(s, "", 0);
  }

  /** Every string includes itself. */
  lemma IncludesSelf(s: string)
    ensures Includes(s, s)
  {
    assert OccursAt(s, s, 0);
  }

  /**
   * The characters `String.prototype.trim` strips: the ECMAScript
   * WhiteSpace and LineTerminator code points.
   */
  predicate IsTrimmable(c: char)
  {
    || c == '\t' || c == '\n' || c == '\U{0B}' || c == '\U{0C}' || c == '\r' || c == ' '
    || c == '\U{A0}' || c == '\U{1680}' || ('\U{2000}' <= c <= '\U{200A}')
    || c == '\U{2028}' || c == '\U{2029}' || c == '\U{202F}' || c == '\U{205F}'
    || c == '\U{3000}' || c == '\U{FEFF}'
  }

  /** Strips trimmable characters from the front. */
  function TrimStart(s: string): (r: string)
    ensures |r| <= |s| && r == s[|s| - |r|..]
    ensures forall i | 0 <= i < |s| - |r| :: IsTrimmable(s[i])
    ensures r == [] || !IsTrimmable(r[0])
  {
    if s != [] && IsTrimmable(s[0]) then TrimStart(s[1..]) else s
  }

  /** Strips trimmable characters from the back. */
  function TrimEnd(s: string): (r: string)
    ensures |r| <= |s| && r == s[..|r|]
    ensures forall i | |r| <= i < |s| :: IsTrimmable(s[i])
    ensures r == [] || !IsTrimmable(r[|r| - 1])
  {
    if s != [] && IsTrimmable(s[|s| - 1]) then TrimEnd(s[..|s| - 1]) else s
  }

  /** `s.trim()`. */
  function Trim(s: string): (r: string)
    ensures r == [] || (!IsTrimmable(r[0]) && !IsTrimmable(r[|r| - 1]))
  {
    var f := TrimStart(s);
    var r := TrimEnd(f);
    assert r != [] ==> r[0] == f[0];
    r
  }

  /**
   * `trim()` cuts a blank prefix and a blank suffix and nothing else: its
   * result is the window of `s` that starts where `trimStart` stopped.
   */
  lemma TrimCuts(s: string)
    ensures var r := Trim(s); var k := |s| - |TrimStart(s)|;
      && OccursAt(s, r, k)
      && (forall i | 0 <= i < k :: IsTrimmable(s[i]))
      && (forall i | k + |r| <= i < |s| :: IsTrimmable(s[i]))
    ensures Includes(s, Trim(s))
  {
    var f := TrimStart(s);
    var r := TrimEnd(f);
    assert Trim(s) == r;
    TrimWindow(s, f, r);
  }

  /**
   * Given a suffix `f` of `s` that starts after a trimmable prefix, and a
   * prefix `r` of `f` that ends before a trimmable suffix, `r` is the window
   * of `s` between the two cuts.
   */
  lemma TrimWindow(s: string, f: string, r: string)
    requires |f| <= |s| && f == s[|s| - |f|..]
    requires forall i | 0 <= i < |s| - |f| :: IsTrimmable(s[i])
    requires f == [] || !IsTrimmable(f[0])
    requires |r| <= |f| && r == f[..|r|]
    requires forall i | |r| <= i < |f| :: IsTrimmable(f[i])
    requires r == [] || !IsTrimmable(r[|r| - 1])
    ensures var k := |s| - |f|;
      && 0 <= k <= |s| - |r| && r == s[k..k + |r|]
      && (forall i | k + |r| <= i < |s| :: IsTrimmable(s[i]))
      && OccursAt(s, r, k) && Includes(s, r)
    ensures r == [] || (!IsTrimmable(r[0]) && !IsTrimmable(r[|r| - 1]))
  {
    var k := |s| - |f|;
    forall i | k + |r| <= i < |s| ensures IsTrimmable(s[i]) {
      assert s[i] == f[i - k];
    }
    assert r == s[k..k + |r|];
    assert OccursAt(s, r, k);
    assert r != [] ==> r[0] == f[0];
  }

  /** A prefix of trimmable characters is blank. */
  lemma BlankPrefix(s: string, k: int)
    requires 0 <= k <= |s|
    requires forall i | 0 <= i < k :: IsTrimmable(s[i])
    ensures IsBlank(s[..k])
  {
    forall i | 0 <= i < k ensures IsTrimmable(s[..k][i]) {
      assert s[..k][i] == s[i];
    }
  }

  /** A suffix of trimmable characters is blank. */
  lemma BlankSuffix(s: string, j: int)
    requires 0 <= j <= |s|
    requires forall i | j <= i < |s| :: IsTrimmable(s[i])
    ensures IsBlank(s[j..])
  {
    forall i | 0 <= i < |s| - j ensures IsTrimmable(s[j..][i]) {
      assert s[j..][i] == s[j + i];
    }
  }

  /** Every character of `s` is one `trim` strips. */
  predicate IsBlank(s: string)
  {
    forall i :: 0 <= i < |s| ==> IsTrimmable(s[i])
  }

  /** Blankness of `s` is blankness of its tail once its head is trimmable. */
  lemma BlankTail(s: string)
    requires s != [] && IsTrimmable(s[0])
    ensures IsBlank(s) <==> IsBlank(s[1..])
  {
    if IsBlank(s[1..]) {
      forall i | 0 < i < |s| ensures IsTrimmable(s[i]) {
        assert s[i] == s[1..][i - 1];
      }
    }
  }

  /** Blankness of `s` is blankness of its front once its last character is trimmable. */
  lemma BlankFront(s: string)
    requires s != [] && IsTrimmable(s[|s| - 1])
    ensures IsBlank(s) <==> IsBlank(s[..|s| - 1])
  {
    if IsBlank(s[..|s| - 1]) {
      forall i | 0 <= i < |s| - 1 ensures IsTrimmable(s[i]) {
        assert s[i] == s[..|s| - 1][i];
      }
    }
  }

  lemma {:induction false} TrimStartEmptyIff(s: string)
    ensures TrimStart(s) == "" <==> IsBlank(s)
  {
    if s == [] {
    } else if IsTrimmable(s[0]) {
      TrimStartEmptyIff(s[1..]);
      BlankTail(s);
    } else {
      assert TrimStart(s) == s;
      assert !IsBlank(s) by { assert !IsTrimmable(s[0]); }
    }
  }

  lemma {:induction false} TrimEndEmptyIff(s: string)
    ensures TrimEnd(s) == "" <==> IsBlank(s)
  {
    if s == [] {
    } else if IsTrimmable(s[|s| - 1]) {
      TrimEndEmptyIff(s[..|s| - 1]);
      BlankFront(s);
    } else {
      assert TrimEnd(s) == s;
      assert !IsBlank(s) by { assert !IsTrimmable(s[|s| - 1]); }
    }
  }

  /** `s.trim() === ""` exactly when `s` is blank. */
  lemma TrimEmptyIff(s: string)
    ensures Trim(s) == "" <==> IsBlank(s)
  {
    TrimStartEmptyIff(s);
    var t := TrimStart(s);
    if t != "" {
      TrimEndEmptyIff(t);
    }
  }

  /** `parts.join(sep)`. */
  function Join(parts: seq<string>, sep: string): string
    decreases |parts|
  {
    if parts == [] then ""
    else if |parts| == 1 then parts[0]
    else Join(parts[..|parts| - 1], sep) + sep + parts[|parts| - 1]
  }
}
