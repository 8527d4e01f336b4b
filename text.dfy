/** The JavaScript string operations the screens use, on strings of Unicode
    characters: the whitespace class of `\s` and `trim`, ASCII
    `toLowerCase`, `indexOf`/`includes`, `replace` with a string pattern,
    the digit filter `replace(/\D/g, '')`, `split(' ')` and the avatar
    initials built from it. */
module Text {
  import opened Collections

  datatype Option<T> = None | Some(value: T)

  /** JavaScript WhiteSpace and LineTerminator: the set matched by `\s`,
      removed by `trim` and skipped by `parseFloat`. */
  predicate IsSpace(c: char) {
    c == '\t' || c == '\n' || c == '\U{000B}' || c == '\U{000C}' || c == '\r' || c == ' '
    || c == '\U{00A0}' || c == '\U{1680}' || ('\U{2000}' <= c <= '\U{200A}')
    || c == '\U{2028}' || c == '\U{2029}' || c == '\U{202F}' || c == '\U{205F}'
    || c == '\U{3000}' || c == '\U{FEFF}'
  }

  predicate IsDigit(c: char) { '0' <= c <= '9' }

  predicate IsLowerLetter(c: char) { 'a' <= c <= 'z' }

  predicate IsUpperLetter(c: char) { 'A' <= c <= 'Z' }

  ghost predicate AllSpace(s: string) {
    forall i :: 0 <= i < |s| ==> IsSpace(s[i])
  }

  ghost predicate AllDigits(s: string) {
    forall i :: 0 <= i < |s| ==> IsDigit(s[i])
  }

  /** ASCII lower case of one character. */
  function Lower(c: char): (r: char)
    ensures !IsUpperLetter(r)
    ensures IsUpperLetter(c) ==> r as int == c as int + 32
    ensures !IsUpperLetter(c) ==> r == c
  {
    if IsUpperLetter(c) then (c as int + 32) as char else c
  }

  function ToLower(s: string): (r: string)
    ensures |r| == |s|
  {
    if s == [] then [] else [Lower(s[0])] + ToLower(s[1..])
  }

  lemma {:induction false} ToLowerAt(s: string)
    ensures |ToLower(s)| == |s|
    ensures forall i :: 0 <= i < |s| ==> ToLower(s)[i] == Lower(s[i])
  {
    if s != [] {
      ToLowerAt(s[1..]);
    }
  }

  /** Lower-casing twice is lower-casing once. */
  lemma {:induction false} ToLowerIdempotent(s: string)
    ensures ToLower(ToLower(s)) == ToLower(s)
  {
    ToLowerAt(s);
    ToLowerAt(ToLower(s));
  }

  /** `trimStart`: drop the longest all-whitespace prefix. */
  function TrimStart(s: string): (r: string)
    ensures |r| <= |s|
  {
    if s != [] && IsSpace(s[0]) then TrimStart(s[1..]) else s
  }

  /** `trimStart` keeps a suffix of its input, drops only whitespace and
      stops at a character that is not whitespace. */
  lemma {:induction false} TrimStartShape(s: string)
    ensures var r := TrimStart(s);
      |r| <= |s| && r == s[|s| - |r|..] && AllSpace(s[..|s| - |r|]) && (r == [] || !IsSpace(r[0]))
  {
    if s != [] && IsSpace(s[0]) {
      var r := TrimStart(s[1..]);
      TrimStartShape(s[1..]);
      assert s[..|s| - |r|] == [s[0]] + s[1..][..|s| - 1 - |r|];
    }
  }

  /** `trimEnd`: drop the longest all-whitespace suffix. */
  function TrimEnd(s: string): (r: string)
    ensures |r| <= |s|
  {
    if s != [] && IsSpace(s[|s| - 1]) then TrimEnd(s[..|s| - 1]) else s
  }

  /** `trimEnd` keeps a prefix of its input, drops only whitespace and stops
      at a character that is not whitespace. */
  lemma {:induction false} TrimEndShape(s: string)
    ensures var r := TrimEnd(s);
      |r| <= |s| && r == s[..|r|] && AllSpace(s[|r|..]) && (r == [] || !IsSpace(r[|r| - 1]))
  {
    if s != [] && IsSpace(s[|s| - 1]) {
      var r := TrimEnd(s[..|s| - 1]);
      TrimEndShape(s[..|s| - 1]);
      assert s[|r|..] == s[..|s| - 1][|r|..] + [s[|s| - 1]];
    }
  }

  /** `String.prototype.trim`. */
  function Trim(s: string): (r: string)
    ensures |r| <= |s|
  {
    TrimEnd(TrimStart(s))
  }

  /** What `trim` returns is a contiguous piece of the input and whitespace
      was removed only at its two ends. */
  lemma TrimShape(s: string)
    ensures |s| - |TrimStart(s)| + |Trim(s)| <= |s|
    ensures s == s[..|s| - |TrimStart(s)|] + Trim(s) + s[|s| - |TrimStart(s)| + |Trim(s)|..]
    ensures AllSpace(s[..|s| - |TrimStart(s)|])
    ensures AllSpace(s[|s| - |TrimStart(s)| + |Trim(s)|..])
  {
    var u := TrimStart(s);
    var i := |s| - |u|;
    var t := TrimEnd(u);
    assert s[i..] == u && AllSpace(s[..i]) by {
      TrimStartShape(s);
    }
    assert t == u[..|t|] && AllSpace(u[|t|..]) by {
      TrimEndShape(u);
    }
    Pieces(s, i, |t|);
  }

  /** A text cut at `i` and `i + n` is the concatenation of its three
      pieces. */
  lemma Pieces(s: string, i: nat, n: nat)
    requires i + n <= |s|
    ensures s == s[..i] + s[i..][..n] + s[i..][n..]
    ensures s[i..][n..] == s[i + n..]
  {
    assert s[i..] == s[i..][..n] + s[i..][n..];
  }

  /** What `trim` returns neither starts nor ends with whitespace. */
  lemma TrimEnds(s: string)
    ensures Trim(s) == [] || (!IsSpace(Trim(s)[0]) && !IsSpace(Trim(s)[|Trim(s)| - 1]))
  {
    var u := TrimStart(s);
    var t := TrimEnd(u);
    TrimStartShape(s);
    TrimEndShape(u);
    if t != [] {
      assert u == t + u[|t|..];
      assert u[0] == t[0];
    }
  }

  /** Every character `trim` returns comes from its input. */
  lemma TrimKeepsChars(s: string, c: char)
    requires c in Trim(s)
    ensures c in s
  {
    TrimShape(s);
  }

  /** Text that does not start with whitespace is left alone by `trimStart`. */
  lemma TrimStartOfNonSpace(s: string)
    requires s != [] && !IsSpace(s[0])
    ensures TrimStart(s) == s
  {
  }

  /** The trimmed text is empty exactly when the input is all whitespace. */
  lemma TrimEmptyIffAllSpace(s: string)
    ensures Trim(s) == [] <==> AllSpace(s)
  {
    var u := TrimStart(s);
    TrimStartShape(s);
    TrimEndShape(u);
    if u != [] {
      assert !IsSpace(s[|s| - |u|]);
      assert !IsSpace(u[0]);
    }
  }

  lemma {:induction false} TrimStartSkipsSpace(pre: string, s: string)
    requires AllSpace(pre)
    ensures TrimStart(pre + s) == TrimStart(s)
  {
    if pre != [] {
      assert (pre + s)[1..] == pre[1..] + s;
      TrimStartSkipsSpace(pre[1..], s);
    } else {
      assert pre + s == s;
    }
  }

  lemma {:induction false} TrimEndSkipsSpace(s: string, post: string)
    requires AllSpace(post)
    ensures TrimEnd(s + post) == TrimEnd(s)
  {
    if post != [] {
      var n := |post|;
      assert (s + post)[..|s + post| - 1] == s + post[..n - 1];
      TrimEndSkipsSpace(s, post[..n - 1]);
    } else {
      assert s + post == s;
    }
  }

  /** Appending whitespace after text that has a non-space character does
      not change where `trimStart` stops. */
  lemma {:induction false} TrimStartThenAppend(s: string, post: string)
    requires TrimStart(s) != []
    ensures TrimStart(s + post) == TrimStart(s) + post
  {
    if IsSpace(s[0]) {
      assert (s + post)[1..] == s[1..] + post;
      TrimStartThenAppend(s[1..], post);
    }
  }

  /** Whitespace around a query does not change its trimmed form. */
  lemma TrimIgnoresPadding(pre: string, s: string, post: string)
    requires AllSpace(pre) && AllSpace(post)
    ensures Trim(pre + s + post) == Trim(s)
  {
    assert pre + s + post == pre + (s + post);
    TrimStartSkipsSpace(pre, s + post);
    if TrimStart(s) == [] {
      TrimEmptyIffAllSpace(s);
      assert AllSpace(s + post);
      TrimEmptyIffAllSpace(s + post);
    } else {
      TrimStartThenAppend(s, post);
      TrimEndSkipsSpace(TrimStart(s), post);
    }
  }

  /** ASCII case folding never turns a character into whitespace or back. */
  lemma LowerKeepsSpace(c: char)
    ensures IsSpace(Lower(c)) == IsSpace(c)
  {
  }

  lemma {:induction false} TrimStartCommutesWithLower(s: string)
    ensures TrimStart(ToLower(s)) == ToLower(TrimStart(s))
  {
    if s != [] {
      var l := ToLower(s);
      assert l == [Lower(s[0])] + ToLower(s[1..]);
      assert l[0] == Lower(s[0]) && l[1..] == ToLower(s[1..]);
      LowerKeepsSpace(s[0]);
      if IsSpace(s[0]) {
        TrimStartCommutesWithLower(s[1..]);
        assert TrimStart(l) == TrimStart(l[1..]);
        assert TrimStart(s) == TrimStart(s[1..]);
      } else {
        assert TrimStart(l) == l;
        assert TrimStart(s) == s;
      }
    }
  }

  lemma {:induction false} ToLowerAppend(a: string, b: string)
    ensures ToLower(a + b) == ToLower(a) + ToLower(b)
  {
    if a == [] {
      assert a + b == b;
    } else {
      assert (a + b)[1..] == a[1..] + b;
      ToLowerAppend(a[1..], b);
    }
  }

  lemma {:induction false} TrimEndCommutesWithLower(s: string)
    ensures TrimEnd(ToLower(s)) == ToLower(TrimEnd(s))
  {
    if s != [] {
      var n := |s|;
      var init := s[..n - 1];
      var l := ToLower(s);
      assert s == init + [s[n - 1]];
      ToLowerAppend(init, [s[n - 1]]);
      assert [s[n - 1]][1..] == [];
      assert ToLower([s[n - 1]]) == [Lower(s[n - 1])];
      assert l == ToLower(init) + [Lower(s[n - 1])];
      ToLowerAt(init);
      assert |l| == n;
      assert l[n - 1] == Lower(s[n - 1]) && l[..n - 1] == ToLower(init);
      LowerKeepsSpace(s[n - 1]);
      if IsSpace(s[n - 1]) {
        TrimEndCommutesWithLower(init);
        assert TrimEnd(l) == TrimEnd(l[..n - 1]);
        assert TrimEnd(s) == TrimEnd(init);
      } else {
        assert TrimEnd(l) == l;
        assert TrimEnd(s) == s;
      }
    }
  }

  /** `trim().toLowerCase()` and `toLowerCase().trim()` agree: ASCII case
      folding never turns a character into whitespace or back. */
  lemma TrimCommutesWithLower(s: string)
    ensures Trim(ToLower(s)) == ToLower(Trim(s))
  {
    TrimStartCommutesWithLower(s);
    TrimEndCommutesWithLower(TrimStart(s));
  }

  /** `pat` occurs in `s` starting at index `i`. */
  predicate OccursAt(s: string, pat: string, i: nat) {
    i + |pat| <= |s| && s[i..i + |pat|] == pat
  }

  lemma OccursAtShift(s: string, pat: string, j: nat)
    requires s != []
    ensures OccursAt(s, pat, j + 1) == OccursAt(s[1..], pat, j)
  {
    if j + 1 + |pat| <= |s| {
      assert s[j + 1..j + 1 + |pat|] == s[1..][j..j + |pat|];
    }
  }

  /** `s` begins with `pat`, compared character by character. */
  predicate StartsWith(s: string, pat: string) {
    pat == [] || (s != [] && s[0] == pat[0] && StartsWith(s[1..], pat[1..]))
  }

  /** Beginning with `pat` is occurring at index 0. */
  lemma {:induction false} StartsWithIff(s: string, pat: string)
    ensures StartsWith(s, pat) <==> OccursAt(s, pat, 0)
  {
    if pat != [] && s != [] {
      StartsWithIff(s[1..], pat[1..]);
      if s[0] == pat[0] && OccursAt(s[1..], pat[1..], 0) {
        assert s[..|pat|] == [s[0]] + s[1..][..|pat| - 1];
        assert pat == [pat[0]] + pat[1..];
      }
      if OccursAt(s, pat, 0) {
        assert s[1..][..|pat| - 1] == s[..|pat|][1..];
      }
    }
  }

  /** `String.prototype.indexOf`: the first index at which `pat` occurs. */
  function IndexOf(s: string, pat: string): (r: Option<nat>)
    ensures r.Some? ==> OccursAt(s, pat, r.value)
  {
    if StartsWith(s, pat) then StartsWithIff(s, pat); Some(0)
    else if s == [] then None
    else
      match IndexOf(s[1..], pat)
      case None => None
      case Some(i) =>
        OccursAtShift(s, pat, i);
        Some(i + 1)
  }

  /** `indexOf` finds the first occurrence, and reports none only when
      there is none. */
  lemma {:induction false} IndexOfFirst(s: string, pat: string)
    ensures IndexOf(s, pat).Some? ==> forall j: nat :: j < IndexOf(s, pat).value ==> !OccursAt(s, pat, j)
    ensures IndexOf(s, pat).None? ==> forall j: nat :: !OccursAt(s, pat, j)
  {
    StartsWithIff(s, pat);
    if StartsWith(s, pat) {
    } else if s != [] {
      IndexOfFirst(s[1..], pat);
      forall j: nat | 0 < j ensures OccursAt(s, pat, j) == OccursAt(s[1..], pat, j - 1) {
        OccursAtShift(s, pat, j - 1);
      }
    }
  }

  /** `String.prototype.includes`. */
  predicate Contains(s: string, pat: string) {
    IndexOf(s, pat).Some?
  }

  /** `includes` holds exactly when some occurrence exists. */
  lemma ContainsIff(s: string, pat: string, i: nat)
    ensures OccursAt(s, pat, i) ==> Contains(s, pat)
    ensures Contains(s, pat) ==> OccursAt(s, pat, IndexOf(s, pat).value)
  {
    IndexOfFirst(s, pat);
  }

  /** `String.prototype.replace(pat, rep)` with a string pattern: only the
      first occurrence is replaced. */
  function ReplaceFirst(s: string, pat: string, rep: string): (r: string)
  {
    if StartsWith(s, pat) then StartsWithIff(s, pat); rep + s[|pat|..]
    else if s == [] then s
    else [s[0]] + ReplaceFirst(s[1..], pat, rep)
  }

  /** `rep` put in place of the occurrence of `pat` at `at`, if any. */
  function Spliced(s: string, pat: string, rep: string, at: Option<nat>): string
    requires at.Some? ==> OccursAt(s, pat, at.value)
  {
    if at.None? then s else s[..at.value] + rep + s[at.value + |pat|..]
  }

  /** Splicing into the tail of a text is splicing one place further into
      the text. */
  lemma SpliceAfterHead(s: string, j: nat, n: nat, rep: string)
    requires s != [] && j + n <= |s| - 1
    ensures [s[0]] + (s[1..][..j] + rep + s[1..][j + n..]) == s[..j + 1] + rep + s[j + 1 + n..]
  {
    assert s[..j + 1] == [s[0]] + s[1..][..j];
    assert s[j + 1 + n..] == s[1..][j + n..];
  }

  lemma {:induction false} ReplaceFirstSpliced(s: string, pat: string, rep: string)
    ensures ReplaceFirst(s, pat, rep) == Spliced(s, pat, rep, IndexOf(s, pat))
  {
    if StartsWith(s, pat) {
      StartsWithIff(s, pat);
      assert s[..0] == [];
    } else if s != [] {
      var tail := ReplaceFirst(s[1..], pat, rep);
      assert ReplaceFirst(s, pat, rep) == [s[0]] + tail;
      ReplaceFirstSpliced(s[1..], pat, rep);
      match IndexOf(s[1..], pat)
      case None =>
        assert IndexOf(s, pat) == None && tail == s[1..];
        assert [s[0]] + s[1..] == s;
      case Some(j) =>
        assert IndexOf(s, pat) == Some(j + 1);
        assert tail == s[1..][..j] + rep + s[1..][j + |pat|..];
        SpliceAfterHead(s, j, |pat|, rep);
    }
  }

  /** Replacing splices `rep` in at the index `indexOf` reports, and leaves
      the text alone when `pat` does not occur. */
  lemma ReplaceFirstAt(s: string, pat: string, rep: string)
    ensures IndexOf(s, pat).None? ==> ReplaceFirst(s, pat, rep) == s
    ensures IndexOf(s, pat).Some? ==> var i := IndexOf(s, pat).value;
      ReplaceFirst(s, pat, rep) == s[..i] + rep + s[i + |pat|..]
  {
    ReplaceFirstSpliced(s, pat, rep);
  }

  /** After replacing, the replacement text is present. */
  lemma ReplaceFirstInserts(s: string, pat: string, rep: string)
    requires Contains(s, pat)
    ensures Contains(ReplaceFirst(s, pat, rep), rep)
  {
    ReplaceFirstAt(s, pat, rep);
    var i := IndexOf(s, pat).value;
    var r := ReplaceFirst(s, pat, rep);
    assert r[i..i + |rep|] == rep;
    ContainsIff(r, rep, i);
  }

  /** A word whose first character occurs nowhere else in it. */
  ghost predicate UniqueHead(w: string) {
    |w| > 0 && forall t :: 0 < t < |w| ==> w[t] != w[0]
  }

  /** Neither word is a prefix of the other. */
  ghost predicate Incomparable(a: string, b: string) {
    !(a <= b) && !(b <= a)
  }

  /** Two words that start with the same character, have that character
      nowhere else and differ before either ends cannot overlap. */
  lemma Separated(s: string, a: string, i: nat, b: string, k: nat)
    requires OccursAt(s, a, i) && OccursAt(s, b, k)
    requires UniqueHead(a) && UniqueHead(b) && a[0] == b[0] && Incomparable(a, b)
    ensures i + |a| <= k || k + |b| <= i
  {
    HeadNotInside(s, a, i, k);
    HeadNotInside(s, b, k, i);
    SameStartPrefixes(s, a, i, b, k);
  }

  /** Inside an occurrence of a word with a unique head, the text does not
      hold that head. */
  lemma HeadNotInside(s: string, w: string, i: nat, k: nat)
    requires OccursAt(s, w, i) && UniqueHead(w)
    ensures i < k < i + |w| ==> s[k] != w[0]
  {
    if i < k < i + |w| {
      assert s[k] == s[i..i + |w|][k - i];
    }
  }

  /** Two words occurring at the same index: the shorter is a prefix of the
      longer. */
  lemma SameStartPrefixes(s: string, a: string, i: nat, b: string, k: nat)
    requires OccursAt(s, a, i) && OccursAt(s, b, k)
    ensures i == k ==> a <= b || b <= a
  {
    if i != k {
    } else if |a| <= |b| {
      assert a == s[i..i + |b|][..|a|];
    } else {
      assert b == s[i..i + |a|][..|b|];
    }
  }

  /** An occurrence inside a shared prefix is an occurrence in both texts. */
  lemma OccursInPrefix(s: string, r: string, n: nat, q: string, k: nat)
    requires n <= |s| && n <= |r| && r[..n] == s[..n]
    requires OccursAt(s, q, k) && k + |q| <= n
    ensures OccursAt(r, q, k)
  {
    forall t | 0 <= t < |q| ensures r[k + t] == q[t] {
      assert r[k + t] == r[..n][k + t];
      assert s[k + t] == s[..n][k + t];
      assert s[k..k + |q|][t] == s[k + t];
    }
    assert r[k..k + |q|] == q;
  }

  /** An occurrence inside a shared suffix is an occurrence in both texts,
      shifted by the difference of where the suffix starts. */
  lemma OccursInSuffix(s: string, a: nat, r: string, b: nat, q: string, k: nat)
    requires a <= |s| && b <= |r| && r[b..] == s[a..]
    requires OccursAt(s, q, k) && a <= k
    ensures OccursAt(r, q, k - a + b)
  {
    var k' := k - a + b;
    assert |r| - b == |s| - a;
    forall t | 0 <= t < |q| ensures r[k' + t] == q[t] {
      assert r[k' + t] == r[b..][k - a + t];
      assert s[k + t] == s[a..][k - a + t];
      assert s[k..k + |q|][t] == s[k + t];
    }
    assert r[k'..k' + |q|] == q;
  }

  /** Replacing the first `pat` keeps any occurrence of a word that cannot
      overlap `pat`. */
  lemma ReplaceFirstKeeps(s: string, pat: string, rep: string, q: string)
    requires Contains(s, q)
    requires UniqueHead(pat) && UniqueHead(q) && pat[0] == q[0] && Incomparable(pat, q)
    ensures Contains(ReplaceFirst(s, pat, rep), q)
  {
    ReplaceFirstAt(s, pat, rep);
    var k := IndexOf(s, q).value;
    if IndexOf(s, pat).Some? {
      var i := IndexOf(s, pat).value;
      Separated(s, pat, i, q, k);
      SpliceKeeps(s, i, |pat|, rep, q, k);
    }
  }

  /** Splicing `rep` over `s[i..i + n]` keeps an occurrence of `q` that lies
      wholly before or wholly after the replaced part. */
  lemma SpliceKeeps(s: string, i: nat, n: nat, rep: string, q: string, k: nat)
    requires i + n <= |s| && OccursAt(s, q, k)
    requires k + |q| <= i || i + n <= k
    ensures Contains(s[..i] + rep + s[i + n..], q)
  {
    var r := s[..i] + rep + s[i + n..];
    if k + |q| <= i {
      assert r[..i] == s[..i];
      OccursInPrefix(s, r, i, q, k);
      ContainsIff(r, q, k);
    } else {
      assert r[i + |rep|..] == s[i + n..];
      OccursInSuffix(s, i + n, r, i + |rep|, q, k);
      ContainsIff(r, q, k - (i + n) + (i + |rep|));
    }
  }

  /** What a text box with `maxLength={n}` accepts of `text`: its first `n`
      characters. */
  function KeepAtMost(text: string, n: nat): (r: string)
    ensures r <= text
    ensures |r| == if |text| <= n then |text| else n
  {
    if |text| <= n then text else text[..n]
  }

  /** `replace(/\D/g, '')` (and `replace(/[^0-9]/g, '')`): the ASCII digits
      in order. */

  function Digits(s: string): (r: string)
    ensures |r| <= |s|
    ensures forall c :: c in r ==> c in s && IsDigit(c)
  {
    Filter(s, IsDigit)
  }

  /** The filter keeps exactly the ASCII digits, so what it returns is all
      digits. */
  lemma DigitsAreDigits(s: string)
    ensures forall c :: c in Digits(s) <==> c in s && IsDigit(c)
    ensures AllDigits(Digits(s))
  {
    forall c ensures c in Digits(s) <==> c in s && IsDigit(c) {
      FilterMembership(s, IsDigit, c);
    }
    forall i | 0 <= i < |Digits(s)| ensures IsDigit(Digits(s)[i]) {
      assert Digits(s)[i] in Digits(s);
    }
  }

  /** The digits of a concatenation are the concatenated digits. */
  lemma DigitsAppend(a: string, b: string)
    ensures Digits(a + b) == Digits(a) + Digits(b)
  {
    FilterAppend(a, b, IsDigit);
  }

  /** A string of digits is its own digit string. */
  lemma DigitsOfDigits(s: string)
    requires AllDigits(s)
    ensures Digits(s) == s
  {
    FilterKeepsAll(s, IsDigit);
  }

  /** Whitespace holds no digits. */
  lemma DigitsOfSpace(s: string)
    requires AllSpace(s)
    ensures Digits(s) == []
  {
    FilterKeepsNone(s, IsDigit);
  }

  /** Lower-casing neither adds nor removes digits. */
  lemma {:induction false} DigitsOfLower(s: string)
    ensures Digits(ToLower(s)) == Digits(s)
  {
    if s != [] {
      assert ToLower(s) == [Lower(s[0])] + ToLower(s[1..]);
      DigitsAppend([Lower(s[0])], ToLower(s[1..]));
      assert s == [s[0]] + s[1..];
      DigitsAppend([s[0]], s[1..]);
      DigitsOfLower(s[1..]);
    }
  }

  /** Trimming removes whitespace only, so it keeps every digit. */
  lemma DigitsOfPadded(pre: string, mid: string, post: string)
    requires AllSpace(pre) && AllSpace(post)
    ensures Digits(pre + mid + post) == Digits(mid)
  {
    DigitsAppend(pre + mid, post);
    DigitsAppend(pre, mid);
    DigitsOfSpace(pre);
    DigitsOfSpace(post);
  }

  lemma DigitsOfTrim(s: string)
    ensures Digits(Trim(s)) == Digits(s)
  {
    TrimShape(s);
    var i := |s| - |TrimStart(s)|;
    DigitsOfPadded(s[..i], Trim(s), s[i + |Trim(s)|..]);
  }

  /** Replacing a digit-free word by a digit-free word keeps the digits. */
  lemma DigitsOfReplaceFirst(s: string, pat: string, rep: string)
    requires Digits(pat) == [] && Digits(rep) == []
    ensures Digits(ReplaceFirst(s, pat, rep)) == Digits(s)
  {
    ReplaceFirstAt(s, pat, rep);
    if IndexOf(s, pat).Some? {
      var i := IndexOf(s, pat).value;
      DigitsOfSplice(s[..i], pat, rep, s[i + |pat|..]);
      OccurrenceSplits(s, pat, i);
    }
  }

  /** A text is what comes before an occurrence, the occurrence and what
      comes after it. */
  lemma OccurrenceSplits(s: string, pat: string, i: nat)
    requires OccursAt(s, pat, i)
    ensures s == s[..i] + pat + s[i + |pat|..]
  {
    Pieces(s, i, |pat|);
    assert s[i..][..|pat|] == s[i..i + |pat|];
  }

  /** Exchanging a digit-free middle for another digit-free middle keeps
      the digits. */
  lemma DigitsOfSplice(a: string, mid: string, mid': string, b: string)
    requires Digits(mid) == [] && Digits(mid') == []
    ensures Digits(a + mid' + b) == Digits(a + mid + b)
  {
    DigitsAppend(a + mid, b);
    DigitsAppend(a, mid);
    DigitsAppend(a + mid', b);
    DigitsAppend(a, mid');
  }

  /** `split(sep)` with a one-character separator: the pieces between
      separators, empty pieces included; the empty string gives one empty
      piece. */
  function Split(s: string, sep: char): (parts: seq<string>)
    ensures |parts| >= 1
    ensures forall p :: p in parts ==> sep !in p
  {
    if s == [] then [[]]
    else
      var rest := Split(s[1..], sep);
      if s[0] == sep then [[]] + rest else [[s[0]] + rest[0]] + rest[1..]
  }

  /** `join(sep)`, the inverse of `Split`. */
  function Join(parts: seq<string>, sep: char): string
    requires |parts| >= 1
  {
    if |parts| == 1 then parts[0] else parts[0] + [sep] + Join(parts[1..], sep)
  }

  /** Splitting loses nothing: joining the pieces back gives the input. */
  lemma {:induction false} JoinSplit(s: string, sep: char)
    ensures Join(Split(s, sep), sep) == s
  {
    if s != [] {
      var rest := Split(s[1..], sep);
      JoinSplit(s[1..], sep);
      if s[0] == sep {
        assert Split(s, sep)[1..] == rest;
      } else {
        var parts := Split(s, sep);
        assert parts[0] == [s[0]] + rest[0];
        if |rest| > 1 {
          assert parts[1..] == rest[1..];
        }
      }
    }
  }

  /** A word without the separator followed by the separator is the first
      piece, and the rest is split on its own. */
  lemma {:induction false} SplitWord(w: string, sep: char, s: string)
    requires sep !in w
    ensures Split(w + [sep] + s, sep) == [w] + Split(s, sep)
  {
    if w == [] {
      assert w + [sep] + s == [sep] + s;
      assert ([sep] + s)[1..] == s;
    } else {
      assert (w + [sep] + s)[1..] == w[1..] + [sep] + s;
      SplitWord(w[1..], sep, s);
      assert [w[0]] + w[1..] == w;
    }
  }

  /** A text without the separator is a single piece. */
  lemma {:induction false} SplitNoSeparator(w: string, sep: char)
    requires sep !in w
    ensures Split(w, sep) == [w]
  {
    if w != [] {
      SplitNoSeparator(w[1..], sep);
      assert [w[0]] + w[1..] == w;
    }
  }

  /** `s[0]` of one piece, where `undefined` joins as nothing. */
  function FirstChar(w: string): string {
    if w == [] then [] else [w[0]]
  }

  /** The avatar initials: `name.split(' ').map(s => s[0]).slice(0, 2).join('')`. */
  function Initials(name: string): (r: string)
    ensures |r| <= 2
    ensures ' ' !in r
  {
    var words := Split(name, ' ');
    assert words[0] in words;
    assert |words| > 1 ==> words[1] in words;
    FirstChar(words[0]) + (if |words| > 1 then FirstChar(words[1]) else [])
  }

  /** A name with no space gives the first character alone. */
  lemma InitialsOfOneWord(w: string)
    requires ' ' !in w
    ensures Initials(w) == FirstChar(w)
  {
    SplitNoSeparator(w, ' ');
  }

  /** A name `first + ' ' + rest` gives the first characters of `first` and
      of the word `rest` starts with; when `rest` starts with another space
      (a double space) that word is empty and adds nothing. */
  lemma InitialsOfTwoWords(first: string, rest: string)
    requires ' ' !in first
    ensures Initials(first + " " + rest) == FirstChar(first) + FirstChar(Split(rest, ' ')[0])
    ensures rest != [] && rest[0] == ' ' ==> Initials(first + " " + rest) == FirstChar(first)
  {
    SplitWord(first, ' ', rest);
    if rest != [] && rest[0] == ' ' {
      assert Split(rest, ' ')[0] == [];
    }
  }

  /** Text that contains no character a word does contains none of its
      occurrences either: used for digit-free words below. */
  lemma DigitsOfLetters(w: string)
    requires forall i :: 0 <= i < |w| ==> !IsDigit(w[i])
    ensures Digits(w) == []
  {
    FilterKeepsNone(w, IsDigit);
  }
}
