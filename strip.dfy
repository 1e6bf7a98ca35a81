/**
 * Python's `str.strip(chars)`: the argument is a SET of characters, and any
 * run of them is cut from both ends. The reply of the chat model is cleaned
 * by four such calls before it is handed to `json.loads`.
 */
module PyStrip {

  /**
   * The left scan of `strip`: the first index at or after `i` whose character
   * is not in `chars`, or `|s|` when there is none.
   */
  function FirstKept(s: string, chars: set<char>, i: nat): (f: nat)
    requires i <= |s|
    ensures i <= f <= |s|
    ensures forall k :: i <= k < f ==> s[k] in chars
    ensures f == |s| || s[f] !in chars
    decreases |s| - i
  {
    if i < |s| && s[i] in chars then FirstKept(s, chars, i + 1) else i
  }

  /**
   * The right scan of `strip`: moves the end `j` down past characters of
   * `chars`, never below `lo` (where the left scan stopped).
   */
  function EndKept(s: string, chars: set<char>, lo: nat, j: nat): (e: nat)
    requires lo <= j <= |s|
    ensures lo <= e <= j
    ensures forall k :: e <= k < j ==> s[k] in chars
    ensures e == lo || s[e - 1] !in chars
    decreases j
  {
    if j > lo && s[j - 1] in chars then EndKept(s, chars, lo, j - 1) else j
  }

  /** Every character of `s` before `i` and from `j` on belongs to `chars`. */
  ghost predicate EndsIn(s: string, i: int, j: int, chars: set<char>)
  {
    (forall k :: 0 <= k < i && k < |s| ==> s[k] in chars) &&
    (forall k :: 0 <= j <= k < |s| ==> s[k] in chars)
  }

  /** `r` is the infix `s[i..j]` and only characters of `chars` lie outside it. */
  ghost predicate TrimmedFrom(s: string, r: string, chars: set<char>)
  {
    exists i, j :: 0 <= i <= j <= |s| && r == s[i..j] && EndsIn(s, i, j, chars)
  }

  /** Neither end of `r` is a character of `chars`. */
  ghost predicate Bare(r: string, chars: set<char>)
  {
    r == [] || (r[0] !in chars && r[|r| - 1] !in chars)
  }

  /** What `s.strip(chars)` returns, independently of how it is computed. */
  ghost predicate IsStripOf(s: string, r: string, chars: set<char>)
  {
    TrimmedFrom(s, r, chars) && Bare(r, chars)
  }

  /** `s.strip(chars)`, where `chars` is the set of characters of Python's argument string. */
  function Strip(s: string, chars: set<char>): string
  {
    var i := FirstKept(s, chars, 0);
    s[i..EndKept(s, chars, i, |s|)]
  }

  /** What the two scans leave is an infix of the kind IsStripOf describes. */
  lemma StripIsStripOf(s: string, chars: set<char>)
    ensures IsStripOf(s, Strip(s, chars), chars)
  {
    var i := FirstKept(s, chars, 0);
    var j := EndKept(s, chars, i, |s|);
    var r := s[i..j];
    assert EndsIn(s, i, j, chars);
    if r != [] {
      assert r[0] == s[i] && r[|r| - 1] == s[j - 1];
    }
  }

  /** Any string of the kind IsStripOf describes is what the two scans leave. */
  lemma StripOfIsStrip(s: string, r: string, chars: set<char>)
    requires IsStripOf(s, r, chars)
    ensures r == Strip(s, chars)
  {
    var a, b :| 0 <= a <= b <= |s| && r == s[a..b] && EndsIn(s, a, b, chars);
    if a == b {
      assert FirstKept(s, chars, 0) == |s|;
    } else {
      assert s[a] == r[0] && s[b - 1] == r[|r| - 1];
      assert FirstKept(s, chars, 0) == a;
      assert EndKept(s, chars, a, |s|) == b;
    }
  }

  /** `Strip` is characterised by IsStripOf, in both directions. */
  lemma StripCharacterized(s: string, r: string, chars: set<char>)
    ensures r == Strip(s, chars) <==> IsStripOf(s, r, chars)
  {
    StripIsStripOf(s, chars);
    if IsStripOf(s, r, chars) {
      StripOfIsStrip(s, r, chars);
    }
  }

  /** Stripping twice with the same characters is stripping once. */
  lemma StripIdempotent(s: string, chars: set<char>)
    ensures Strip(Strip(s, chars), chars) == Strip(s, chars)
  {
    var r := Strip(s, chars);
    StripIsStripOf(s, chars);
    assert r == r[0..|r|] && EndsIn(r, 0, |r|, chars);
    StripCharacterized(r, r, chars);
  }

  /** `s.strip("")` is `s`. */
  lemma StripNothing(s: string)
    ensures Strip(s, {}) == s
  {
    assert s == s[0..|s|] && EndsIn(s, 0, |s|, {});
    StripCharacterized(s, s, {});
  }

  /** The ends cut in two steps together consist of characters of either set. */
  lemma EndsInCompose(a: string, b: string, i1: int, j1: int, i2: int, j2: int, chars1: set<char>, chars2: set<char>)
    requires 0 <= i1 <= j1 <= |a| && b == a[i1..j1] && EndsIn(a, i1, j1, chars1)
    requires 0 <= i2 <= j2 <= |b| && EndsIn(b, i2, j2, chars2)
    ensures EndsIn(a, i1 + i2, i1 + j2, chars1 + chars2)
  {
    forall k | 0 <= k < i1 + i2 ensures a[k] in chars1 + chars2 {
      if k >= i1 { assert a[k] == b[k - i1]; }
    }
    forall k | i1 + j2 <= k < |a| ensures a[k] in chars1 + chars2 {
      if k < j1 { assert a[k] == b[k - i1]; }
    }
  }

  /** Cutting from a cut: what was removed in all lies in the union of both character sets. */
  lemma TrimmedTransitive(a: string, b: string, c: string, chars1: set<char>, chars2: set<char>)
    requires TrimmedFrom(a, b, chars1) && TrimmedFrom(b, c, chars2)
    ensures TrimmedFrom(a, c, chars1 + chars2)
  {
    var i1, j1 :| 0 <= i1 <= j1 <= |a| && b == a[i1..j1] && EndsIn(a, i1, j1, chars1);
    var i2, j2 :| 0 <= i2 <= j2 <= |b| && c == b[i2..j2] && EndsIn(b, i2, j2, chars2);
    assert c == a[i1 + i2..i1 + j2] by {
      forall k | 0 <= k < |c| ensures c[k] == a[i1 + i2 + k] {
        assert c[k] == b[i2 + k];
      }
    }
    EndsInCompose(a, b, i1, j1, i2, j2, chars1, chars2);
  }

  /** The characters the model's reply is cleaned of, in the order of the four calls. */
  const Fence: set<char> := {'`'}
  const Newline: set<char> := {'\n'}
  const JsonTag: set<char> := {'j', 's', 'o', 'n'}

  /** `response.strip("`").strip("\n").strip("json").strip("")`. */
  function Cleanup(reply: string): string
  {
    Strip(Strip(Strip(Strip(reply, Fence), Newline), JsonTag), {})
  }

  /**
   * The cleaned reply is an infix of the reply; only backticks, newlines and
   * the letters j, s, o, n were cut, and it neither starts nor ends with one of those letters.
   */
  lemma CleanupTrims(reply: string)
    ensures TrimmedFrom(reply, Cleanup(reply), Fence + Newline + JsonTag)
    ensures Bare(Cleanup(reply), JsonTag)
  {
    var a := Strip(reply, Fence);
    var b := Strip(a, Newline);
    var c := Strip(b, JsonTag);
    StripIsStripOf(reply, Fence);
    StripIsStripOf(a, Newline);
    StripIsStripOf(b, JsonTag);
    StripNothing(c);
    TrimmedTransitive(reply, a, b, Fence, Newline);
    TrimmedTransitive(reply, b, c, Fence + Newline, JsonTag);
  }
}

module CleanupFacts {
  import opened PyStrip

  /** Every character of `p` belongs to `chars`. */
  ghost predicate AllIn(p: string, chars: set<char>)
  {
    forall k :: 0 <= k < |p| ==> p[k] in chars
  }

  /**
   * Stripping `chars` from `p + m + q` leaves `m` when `p` and `q` consist of
   * `chars` and `m` does not start or end with one: with JsonTag, any run of
   * the letters j, s, o, n goes (`nosj` as well as `json`), and a `json` inside `m` stays.
   */
  lemma StripFrame(p: string, m: string, q: string, chars: set<char>)
    requires AllIn(p, chars) && AllIn(q, chars) && Bare(m, chars)
    ensures Strip(p + m + q, chars) == m
  {
    var s := p + m + q;
    var i, j := |p|, |p| + |m|;
    assert s[i..j] == m;
    forall k | 0 <= k < i ensures s[k] in chars {
      assert s[k] == p[k];
    }
    forall k | j <= k < |s| ensures s[k] in chars {
      assert s[k] == q[k - j];
    }
    assert EndsIn(s, i, j, chars);
    StripCharacterized(s, m, chars);
  }

  /**
   * The first cleanup step takes the opening backticks off the front and the
   * backticks `close` (a closing fence, or nothing) off the end.
   */
  lemma FenceStep(s: string, m: string, close: string)
    requires s == "```json\n" + m + "\n" + close && AllIn(close, Fence)
    ensures Strip(s, Fence) == "json\n" + m + "\n"
  {
    var a := "json\n" + m + "\n";
    assert s == "```" + a + close;
    assert a[0] == 'j' && a[|a| - 1] == '\n';
    StripFrame("```", a, close, Fence);
  }

  /** The second cleanup step takes one trailing newline off `json\n<m>\n`. */
  lemma NewlineStep(s: string, m: string)
    requires s == "json\n" + m + "\n"
    requires m != [] && m[|m| - 1] != '\n'
    ensures Strip(s, Newline) == "json\n" + m
  {
    var b := "json\n" + m;
    assert s == "" + b + "\n";
    assert b[0] == 'j' && b[|b| - 1] == m[|m| - 1];
    StripFrame("", b, "\n", Newline);
  }

  /** The third cleanup step takes the letters `json` off the front of `json\n<m>`. */
  lemma TagStep(s: string, m: string)
    requires s == "json\n" + m
    requires m != [] && m[|m| - 1] !in JsonTag
    ensures Strip(s, JsonTag) == "\n" + m
  {
    var c := "\n" + m;
    assert s == "json" + c + "";
    assert c[0] == '\n' && c[|c| - 1] == m[|m| - 1];
    StripFrame("json", c, "", JsonTag);
  }

  /** A reply fenced as a Markdown json block comes out with one newline left in front. */
  lemma CleanupFencedJson(reply: string, body: string)
    requires reply == "```json\n" + body + "\n```"
    requires body != [] && body[|body| - 1] !in Newline + JsonTag
    ensures Cleanup(reply) == "\n" + body
  {
    FenceStep(reply, body, "```");
    NewlineStep("json\n" + body + "\n", body);
    TagStep("json\n" + body, body);
    StripNothing("\n" + body);
  }

  /**
   * A newline after the closing fence stops the cleanup at it: for `m` = body + "\n```",
   * the fence reaches json.loads.
   */
  lemma CleanupKeepsFenceBeforeNewline(reply: string, m: string)
    requires reply == "```json\n" + m + "\n"
    requires m != [] && m[|m| - 1] == '`'
    ensures Cleanup(reply) == "\n" + m
  {
    FenceStep(reply, m, "");
    NewlineStep("json\n" + m + "\n", m);
    TagStep("json\n" + m, m);
    StripNothing("\n" + m);
  }
}
