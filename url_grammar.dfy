/**
 * The instance-URL grammar of the settings screen: the language of the
 * regular expression
 *
 *   ^(https?:\/\/)(localhost|\b\d{1,3}\.\d{1,3}\.\d{1,3}\.\d{1,3}\b|([a-zA-Z0-9-]+\.)+[a-zA-Z]{2,})(:\d+)?(\/.*)?$
 *
 * matched against the whole string (NSPredicate MATCHES, ICU semantics,
 * case-sensitive, `.` not matching line terminators).
 *
 * `Matches` is the meaning of the expression: there exists a split of the
 * string into scheme, host, optional port and optional path, each in its own
 * language. `Recognize` decides the same language without search: the path
 * starts at the first '/' after the scheme, the port at the first ':' before
 * it, a dotted host is cut at its dots. `MatchesIffRecognize` proves the two
 * agree on every string.
 */
module UrlGrammar {
  import opened Text

  // ----- character classes

  predicate IsAlpha(c: char) { 'a' <= c <= 'z' || 'A' <= c <= 'Z' }

  /** `[a-zA-Z0-9-]` */
  predicate IsLabelChar(c: char) { IsAlpha(c) || IsDigit(c) || c == '-' }

  /** The characters any host alternative is made of. */
  predicate IsHostChar(c: char) { IsLabelChar(c) || c == '.' }

  /**
   * ICU's `\w`, written out for ASCII. In a full match the only characters
   * that meet a `\b` are '/', ':' and ASCII digits, on which this agrees with ICU.
   */
  predicate IsWordChar(c: char) { IsAlpha(c) || IsDigit(c) || c == '_' }

  /** ICU line terminators: the characters `.` does not match. */
  predicate IsLineTerminator(c: char) {
    c == '\n' || c == '\U{B}' || c == '\U{C}' || c == '\r'
    || c == '\U{85}' || c == '\U{2028}' || c == '\U{2029}'
  }

  predicate AllAlpha(s: string) { forall k | 0 <= k < |s| :: IsAlpha(s[k]) }

  predicate AllLabelChars(s: string) { forall k | 0 <= k < |s| :: IsLabelChar(s[k]) }

  predicate NoLineTerminator(s: string) { forall k | 0 <= k < |s| :: !IsLineTerminator(s[k]) }

  // ----- the parts of the expression

  /** `https?:\/\/` */
  predicate Scheme(s: string) { s == "http://" || s == "https://" }

  /** `\d{1,3}` */
  predicate Octet(s: string) { 1 <= |s| <= 3 && AllDigits(s) }

  /** The dots of `s` at `i`, `j`, `k` separate four one-to-three-digit groups. */
  predicate DottedQuadAt(s: string, i: int, j: int, k: int) {
    0 <= i < j < k < |s| && s[i] == '.' && s[j] == '.' && s[k] == '.'
    && Octet(s[..i]) && Octet(s[i + 1..j]) && Octet(s[j + 1..k]) && Octet(s[k + 1..])
  }

  /** `\d{1,3}\.\d{1,3}\.\d{1,3}\.\d{1,3}` (no range check on the groups) */
  predicate Ipv4(s: string) {
    exists i, j, k | 0 <= i < j < k < |s| :: DottedQuadAt(s, i, j, k)
  }

  /** `[a-zA-Z0-9-]+` */
  predicate Label(s: string) { 1 <= |s| && AllLabelChars(s) }

  /** `s[..e]` is in `([a-zA-Z0-9-]+\.)+`: one or more labels, each followed by a dot. */
  predicate Labels(s: string, e: int)
    decreases e
  {
    2 <= e <= |s| && s[e - 1] == '.'
    && (Label(s[..e - 1])
        || exists i | 2 <= i < e - 1 :: Labels(s, i) && Label(s[i..e - 1]))
  }

  /** `[a-zA-Z]{2,}` */
  predicate Tld(s: string) { 2 <= |s| && AllAlpha(s) }

  /** `([a-zA-Z0-9-]+\.)+[a-zA-Z]{2,}` */
  predicate Domain(s: string) {
    exists i | 2 <= i <= |s| - 2 :: Labels(s, i) && Tld(s[i..])
  }

  /** `(:\d+)?` */
  predicate Port(s: string) { s == [] || (2 <= |s| && s[0] == ':' && AllDigits(s[1..])) }

  /** `(\/.*)?` */
  predicate Path(s: string) { s == [] || (s[0] == '/' && NoLineTerminator(s[1..])) }

  /** `\b` at position `p` of `s`. */
  predicate WordBoundary(s: string, p: int) {
    0 <= p <= |s| && ((0 < p && IsWordChar(s[p - 1])) != (p < |s| && IsWordChar(s[p])))
  }

  /** `s[i..j]` is one of the three host alternatives, with the IPv4 one between word boundaries. */
  predicate HostAt(s: string, i: int, j: int) {
    0 <= i <= j <= |s|
    && (s[i..j] == "localhost"
        || (WordBoundary(s, i) && Ipv4(s[i..j]) && WordBoundary(s, j))
        || Domain(s[i..j]))
  }

  /** Scheme `s[..i]`, host `s[i..j]`, port `s[j..k]`, path `s[k..]`. */
  predicate SplitAt(s: string, i: int, j: int, k: int) {
    0 <= i <= j <= k <= |s|
    && Scheme(s[..i]) && HostAt(s, i, j) && Port(s[j..k]) && Path(s[k..])
  }

  /** The whole string is in the language of the expression. */
  predicate Matches(s: string) {
    exists i, j, k | 0 <= i <= j <= k <= |s| :: SplitAt(s, i, j, k)
  }

  // ----- a recognizer without search

  /** First index in `[lo, hi)` holding `c`, or `hi` when there is none. */
  function Find(s: string, c: char, lo: nat, hi: nat): (r: nat)
    requires lo <= hi <= |s|
    decreases hi - lo
    ensures lo <= r <= hi
    ensures r < hi ==> s[r] == c
    ensures forall m | lo <= m < r :: s[m] != c
  {
    if lo == hi || s[lo] == c then lo else Find(s, c, lo + 1, hi)
  }

  /** Last index below `to` holding `c`, or -1 when there is none. */
  function FindLast(s: string, c: char, to: nat): (r: int)
    requires to <= |s|
    ensures -1 <= r < to
    ensures 0 <= r ==> s[r] == c
    ensures forall m | r < m < to :: s[m] != c
  {
    if to == 0 then -1
    else if s[to - 1] == c then to - 1
    else FindLast(s, c, to - 1)
  }

  /** Length of the scheme `s` starts with, 0 when it starts with neither. */
  function SchemeLength(s: string): (n: nat)
    ensures n <= |s|
    ensures n != 0 ==> Scheme(s[..n])
  {
    if 8 <= |s| && s[..8] == "https://" then 8
    else if 7 <= |s| && s[..7] == "http://" then 7
    else 0
  }

  /** IPv4 form, with the groups cut at the first three dots. */
  function Ipv4Check(h: string): bool {
    var a := Find(h, '.', 0, |h|);
    var b := if a < |h| then Find(h, '.', a + 1, |h|) else |h|;
    var c := if b < |h| then Find(h, '.', b + 1, |h|) else |h|;
    c < |h| && DottedQuadAt(h, a, b, c)
  }

  /** `h[..e]` is labels each followed by a dot, the last label cut at the previous dot. */
  function LabelsCheck(h: string, e: nat): bool
    requires e <= |h|
    decreases e
  {
    2 <= e && h[e - 1] == '.'
    && var d := FindLast(h, '.', e - 1);
       Label(h[d + 1..e - 1]) && (d == -1 || LabelsCheck(h, d + 1))
  }

  /** Dotted host name, with the top-level domain cut at the last dot. */
  function DomainCheck(h: string): bool {
    var d := FindLast(h, '.', |h|);
    0 <= d && LabelsCheck(h, d + 1) && Tld(h[d + 1..])
  }

  function HostCheck(h: string): bool {
    h == "localhost" || Ipv4Check(h) || DomainCheck(h)
  }

  /** Decides `Matches` by cutting the string at its first '/' and ':' after the scheme. */
  function Recognize(s: string): bool {
    var n := SchemeLength(s);
    var p := Find(s, '/', n, |s|);
    var q := Find(s, ':', n, p);
    0 < n && HostCheck(s[n..q]) && Port(s[q..p]) && Path(s[p..])
  }

  // ----- uniqueness of the cut points

  lemma FindIs(s: string, c: char, lo: nat, hi: nat, t: nat)
    requires lo <= t <= hi <= |s|
    requires t < hi ==> s[t] == c
    requires forall m | lo <= m < t :: s[m] != c
    ensures Find(s, c, lo, hi) == t
  {
  }

  lemma FindLastIs(s: string, c: char, to: nat, t: int)
    requires -1 <= t < to <= |s|
    requires 0 <= t ==> s[t] == c
    requires forall m | t < m < to :: s[m] != c
    ensures FindLast(s, c, to) == t
  {
  }

  lemma SchemeLengthOf(s: string, i: int)
    requires 0 <= i <= |s| && Scheme(s[..i])
    ensures SchemeLength(s) == i
  {
    if s[..i] == "http://" {
      assert s[4] == s[..i][4] == ':';
    }
  }

  // ----- characters of the parts

  lemma {:induction false} LabelsChars(h: string, e: int)
    requires Labels(h, e)
    ensures forall m | 0 <= m < e :: IsHostChar(h[m])
    decreases e
  {
    if Label(h[..e - 1]) {
      forall m | 0 <= m < e ensures IsHostChar(h[m]) {
        if m < e - 1 {
          assert h[..e - 1][m] == h[m];
        }
      }
    } else {
      var i :| 2 <= i < e - 1 && Labels(h, i) && Label(h[i..e - 1]);
      LabelsChars(h, i);
      forall m | 0 <= m < e ensures IsHostChar(h[m]) {
        if i <= m < e - 1 {
          assert h[i..e - 1][m - i] == h[m];
        }
      }
    }
  }

  /** The characters of a group of digits are digits, so none is a dot. */
  lemma OctetDigits(h: string, lo: int, hi: int)
    requires 0 <= lo <= hi <= |h| && Octet(h[lo..hi])
    ensures forall m | lo <= m < hi :: IsDigit(h[m]) && h[m] != '.'
  {
    forall m | lo <= m < hi ensures IsDigit(h[m]) {
      assert IsDigit(h[lo..hi][m - lo]);
    }
  }

  /** An IPv4 host holds only digits and dots. */
  lemma Ipv4Chars(h: string)
    requires Ipv4(h)
    ensures forall m | 0 <= m < |h| :: IsDigit(h[m]) || h[m] == '.'
  {
    var i, j, k :| 0 <= i < j < k < |h| && DottedQuadAt(h, i, j, k);
    assert h[..i] == h[0..i] && h[k + 1..] == h[k + 1..|h|];
    OctetDigits(h, 0, i);
    OctetDigits(h, i + 1, j);
    OctetDigits(h, j + 1, k);
    OctetDigits(h, k + 1, |h|);
  }

  /** Every host alternative is made of letters, digits, '-' and '.'. */
  lemma HostChars(h: string)
    requires h == "localhost" || Ipv4(h) || Domain(h)
    ensures forall m | 0 <= m < |h| :: IsHostChar(h[m])
  {
    if Ipv4(h) {
      Ipv4Chars(h);
    } else if Domain(h) {
      var i :| 2 <= i <= |h| - 2 && Labels(h, i) && Tld(h[i..]);
      LabelsChars(h, i);
      forall m | i <= m < |h| ensures IsHostChar(h[m]) {
        assert h[i..][m - i] == h[m];
      }
    }
  }

  // ----- the host alternatives against their recognizers

  lemma QuadImpliesCheck(h: string, i: int, j: int, k: int)
    requires DottedQuadAt(h, i, j, k)
    ensures Ipv4Check(h)
  {
    assert h[..i] == h[0..i];
    OctetDigits(h, 0, i);
    FindIs(h, '.', 0, |h|, i);
    OctetDigits(h, i + 1, j);
    FindIs(h, '.', i + 1, |h|, j);
    OctetDigits(h, j + 1, k);
    FindIs(h, '.', j + 1, |h|, k);
  }

  lemma CheckImpliesQuad(h: string)
    requires Ipv4Check(h)
    ensures Ipv4(h)
  {
    var a := Find(h, '.', 0, |h|);
    var b := Find(h, '.', a + 1, |h|);
    var c := Find(h, '.', b + 1, |h|);
    assert DottedQuadAt(h, a, b, c);
  }

  lemma Ipv4IffCheck(h: string)
    ensures Ipv4(h) <==> Ipv4Check(h)
  {
    if Ipv4(h) {
      var i, j, k :| 0 <= i < j < k < |h| && DottedQuadAt(h, i, j, k);
      QuadImpliesCheck(h, i, j, k);
    }
    if Ipv4Check(h) {
      CheckImpliesQuad(h);
    }
  }

  /** A label running up to `e - 1` that starts at `i`, just after a dot or at 0. */
  lemma LastLabelCut(h: string, i: int, e: nat)
    requires 0 <= i < e - 1 && e <= |h|
    requires 0 < i ==> h[i - 1] == '.'
    requires Label(h[i..e - 1])
    ensures FindLast(h, '.', e - 1) == i - 1
  {
    forall m | i - 1 < m < e - 1 ensures h[m] != '.' {
      assert IsLabelChar(h[i..e - 1][m - i]);
    }
    FindLastIs(h, '.', e - 1, i - 1);
  }

  /** One more label and dot after labels already recognised up to `i`. */
  lemma LabelsCheckStep(h: string, i: int, e: nat)
    requires 2 <= i < e - 1 && e <= |h| && h[e - 1] == '.'
    requires LabelsCheck(h, i) && Label(h[i..e - 1])
    ensures LabelsCheck(h, e)
  {
    assert h[i - 1] == '.';
    LastLabelCut(h, i, e);
  }

  lemma {:induction false} LabelsImpliesCheck(h: string, e: nat)
    requires Labels(h, e)
    ensures LabelsCheck(h, e)
    decreases e
  {
    if Label(h[..e - 1]) {
      assert h[..e - 1] == h[0..e - 1];
      LastLabelCut(h, 0, e);
    } else {
      var i :| 2 <= i < e - 1 && Labels(h, i) && Label(h[i..e - 1]);
      LabelsImpliesCheck(h, i);
      LabelsCheckStep(h, i, e);
    }
  }

  lemma {:induction false} CheckImpliesLabels(h: string, e: nat)
    requires e <= |h| && LabelsCheck(h, e)
    ensures Labels(h, e)
    decreases e
  {
    var d := FindLast(h, '.', e - 1);
    if d == -1 {
      assert h[..e - 1] == h[d + 1..e - 1];
    } else {
      CheckImpliesLabels(h, d + 1);
      assert Labels(h, d + 1) && Label(h[d + 1..e - 1]);
    }
  }

  lemma DomainImpliesCheck(h: string)
    requires Domain(h)
    ensures DomainCheck(h)
  {
    var i :| 2 <= i <= |h| - 2 && Labels(h, i) && Tld(h[i..]);
    forall m | i - 1 < m < |h| ensures h[m] != '.' {
      assert IsAlpha(h[i..][m - i]);
    }
    FindLastIs(h, '.', |h|, i - 1);
    LabelsImpliesCheck(h, i);
  }

  lemma CheckImpliesDomain(h: string)
    requires DomainCheck(h)
    ensures Domain(h)
  {
    var d := FindLast(h, '.', |h|);
    CheckImpliesLabels(h, d + 1);
    assert Labels(h, d + 1) && Tld(h[d + 1..]);
  }

  lemma DomainIffCheck(h: string)
    ensures Domain(h) <==> DomainCheck(h)
  {
    if Domain(h) {
      DomainImpliesCheck(h);
    }
    if DomainCheck(h) {
      CheckImpliesDomain(h);
    }
  }

  // ----- the word boundaries of the IPv4 alternative

  lemma Ipv4Ends(h: string)
    requires Ipv4(h)
    ensures 0 < |h| && IsDigit(h[0]) && IsDigit(h[|h| - 1])
  {
    var i, j, k :| 0 <= i < j < k < |h| && DottedQuadAt(h, i, j, k);
    assert h[..i][0] == h[0];
    assert h[k + 1..][|h| - k - 2] == h[|h| - 1];
  }

  /**
   * Between a scheme and a port or path, the word boundaries the IPv4
   * alternative asks for always hold: the scheme ends in '/', a port starts
   * with ':', a path with '/', and the address starts and ends with a digit.
   */
  lemma Ipv4BoundariesHold(s: string, i: int, j: int, k: int)
    requires 0 <= i <= j <= k <= |s|
    requires Scheme(s[..i]) && Ipv4(s[i..j]) && Port(s[j..k]) && Path(s[k..])
    ensures WordBoundary(s, i) && WordBoundary(s, j)
  {
    Ipv4Ends(s[i..j]);
    assert s[i - 1] == s[..i][i - 1] == '/';
    assert s[i] == s[i..j][0];
    assert s[j - 1] == s[i..j][j - i - 1];
    if j < k {
      assert s[j] == s[j..k][0];
    } else if k < |s| {
      assert s[k] == s[k..][0];
    }
  }

  // ----- the two definitions agree

  /** In any split, the host ends at the first ':' and the port at the first '/' after the scheme. */
  lemma SplitCuts(s: string, i: int, j: int, k: int)
    requires SplitAt(s, i, j, k)
    ensures SchemeLength(s) == i
    ensures Find(s, '/', i, |s|) == k && Find(s, ':', i, k) == j
    ensures forall l | i <= l < k :: IsHostChar(s[l]) || s[l] == ':'
  {
    SchemeLengthOf(s, i);
    var h := s[i..j];
    HostChars(h);
    forall m | i <= m < k
      ensures s[m] != '/' && (m < j ==> s[m] != ':') && (IsHostChar(s[m]) || s[m] == ':')
    {
      if m < j {
        assert IsHostChar(h[m - i]);
      } else {
        assert s[m] == s[j..k][m - j];
      }
    }
    if k < |s| {
      assert s[k] == s[k..][0];
    }
    FindIs(s, '/', i, |s|, k);
    if j < k {
      assert s[j] == s[j..k][0];
    }
    FindIs(s, ':', i, k, j);
  }

  lemma MatchesImpliesRecognize(s: string)
    requires Matches(s)
    ensures Recognize(s)
  {
    var i, j, k :| 0 <= i <= j <= k <= |s| && SplitAt(s, i, j, k);
    SplitCuts(s, i, j, k);
    Ipv4IffCheck(s[i..j]);
    DomainIffCheck(s[i..j]);
  }

  lemma RecognizeImpliesMatches(s: string)
    requires Recognize(s)
    ensures Matches(s)
  {
    var n := SchemeLength(s);
    var p := Find(s, '/', n, |s|);
    var q := Find(s, ':', n, p);
    var h := s[n..q];
    Ipv4IffCheck(h);
    DomainIffCheck(h);
    if Ipv4(h) {
      Ipv4BoundariesHold(s, n, q, p);
    }
    assert SplitAt(s, n, q, p);
  }

  /** The search-free recognizer decides exactly the language of the expression. */
  lemma MatchesIffRecognize(s: string)
    ensures Matches(s) <==> Recognize(s)
  {
    if Matches(s) {
      MatchesImpliesRecognize(s);
    }
    if Recognize(s) {
      RecognizeImpliesMatches(s);
    }
  }

  // ----- accepted and rejected inputs

  /** Only `http://` and `https://` URLs are accepted, in lower case. */
  lemma SchemeRequired(s: string)
    ensures Matches(s) ==> (7 <= |s| && s[..7] == "http://") || (8 <= |s| && s[..8] == "https://")
  {
    if Matches(s) {
      var i, j, k :| 0 <= i <= j <= k <= |s| && SplitAt(s, i, j, k);
    }
  }

  /** So every accepted string starts with a lower-case 'h'. */
  lemma StartsWithLowerH(s: string)
    requires |s| == 0 || s[0] != 'h'
    ensures !Matches(s)
  {
    SchemeRequired(s);
    if 7 <= |s| {
      assert s[..7][0] == s[0];
    }
    if 8 <= |s| {
      assert s[..8][0] == s[0];
    }
  }

  lemma RejectsMissingScheme()
    ensures !Matches("example.com")
    ensures !Matches("")
  {
    StartsWithLowerH("example.com");
    StartsWithLowerH("");
  }

  lemma RejectsOtherSchemes()
    ensures !Matches("ftp://example.com")
    ensures !Matches("HTTP://example.com")
  {
    StartsWithLowerH("ftp://example.com");
    StartsWithLowerH("HTTP://example.com");
  }

  /**
   * Between the scheme and the first '/', only host characters and ':' may
   * occur: anything else (a query '?', a fragment '#', user info '@', a
   * space) makes the string invalid wherever it stands.
   */
  lemma RejectsForeignCharBeforePath(s: string, m: int)
    requires 0 < SchemeLength(s) <= m < |s|
    requires forall l | SchemeLength(s) <= l < m :: s[l] != '/'
    requires !IsHostChar(s[m]) && s[m] != ':' && s[m] != '/'
    ensures !Matches(s)
  {
    if Matches(s) {
      var i, j, k :| 0 <= i <= j <= k <= |s| && SplitAt(s, i, j, k);
      SplitCuts(s, i, j, k);
    }
  }

  lemma RejectsTrailingQuery()
    ensures !Matches("https://example.com?x")
  {
    var s := "https://example.com?x";
    assert s[..8] == "https://";
    RejectsForeignCharBeforePath(s, 19);
  }

  lemma AcceptsAddressWithPort()
    ensures Matches("https://192.168.1.5:8181")
  {
    var s := "https://192.168.1.5:8181";
    assert s[..8] == "https://";
    var h := s[8..19];
    assert h == "192.168.1.5";
    assert DottedQuadAt(h, 3, 7, 9) by {
      assert h[..3] == "192";
      assert h[4..7] == "168";
      assert h[8..9] == "1";
      assert h[10..] == "5";
    }
    assert s[19..24] == ":8181";
    assert s[19..24][1..] == "8181";
    assert WordBoundary(s, 8) && WordBoundary(s, 19);
    assert SplitAt(s, 8, 19, 24);
  }

  lemma AcceptsLocalhostWithPath()
    ensures Matches("http://localhost/api")
  {
    var scheme, host, path := "http://", "localhost", "/api";
    var u := scheme + host + path;
    assert u[..7] == scheme && u[7..16] == host && u[16..] == path;
    assert Path(path) by {
      assert path[1..] == "api";
    }
    assert SplitAt(u, 7, 16, 16);
    assert u == "http://localhost/api";
  }

  lemma AcceptsDomain()
    ensures Matches("https://example.com")
  {
    var v := "https://example.com";
    var d := v[8..];
    assert d == "example.com";
    assert d[..7] == "example";
    assert Labels(d, 8);
    assert d[8..] == "com";
    assert v[..8] == "https://";
    assert v[8..|v|] == d;
    assert SplitAt(v, 8, |v|, |v|);
  }

  /** The four groups joined by dots form a dotted quad with the dots right after each group. */
  lemma JoinedQuad(a: string, b: string, c: string, d: string)
    requires Octet(a) && Octet(b) && Octet(c) && Octet(d)
    ensures var h := a + "." + b + "." + c + "." + d;
      DottedQuadAt(h, |a|, |a| + 1 + |b|, |a| + 1 + |b| + 1 + |c|)
  {
    var h1 := a + ".";
    var h2 := h1 + b + ".";
    var h3 := h2 + c + ".";
    var h := h3 + d;
    assert h == a + "." + b + "." + c + "." + d;
    var i, j, k := |a|, |h1| + |b|, |h2| + |c|;
    assert h[..i] == a by {
      assert h[..i] == h1[..i];
    }
    assert h[i + 1..j] == b by {
      assert h[i + 1..j] == h2[i + 1..j];
    }
    assert h[j + 1..k] == c by {
      assert h[j + 1..k] == h3[j + 1..k];
    }
    assert h[k + 1..] == d;
  }

  /** The address groups are not range-checked: any four 1-3 digit groups are accepted. */
  lemma AcceptsAnyDottedQuad(a: string, b: string, c: string, d: string)
    requires Octet(a) && Octet(b) && Octet(c) && Octet(d)
    ensures Matches("http://" + a + "." + b + "." + c + "." + d)
  {
    var h := a + "." + b + "." + c + "." + d;
    JoinedQuad(a, b, c, d);
    var s := "http://" + h;
    assert s == "http://" + a + "." + b + "." + c + "." + d;
    assert s[..7] == "http://";
    assert s[7..|s|] == h;
    assert Ipv4(s[7..|s|]);
    assert Port(s[|s|..|s|]) && Path(s[|s|..]);
    Ipv4BoundariesHold(s, 7, |s|, |s|);
    assert SplitAt(s, 7, |s|, |s|);
  }

  lemma AcceptsOutOfRangeAddress()
    ensures Matches("http://999.999.999.999")
  {
    var s := "http://999.999.999.999";
    var h := s[7..];
    assert h == "999.999.999.999";
    assert h[..3] == "999" && h[4..7] == "999" && h[8..11] == "999" && h[12..] == "999";
    assert DottedQuadAt(h, 3, 7, 11);
    assert s[..7] == "http://" && s[7..|s|] == h;
    Ipv4BoundariesHold(s, 7, |s|, |s|);
    assert SplitAt(s, 7, |s|, |s|);
  }

  /** `1.2.3.4.com` is not an address but is a dotted name with top-level domain `com`. */
  lemma NumericLabelsDomain()
    ensures !Ipv4("1.2.3.4.com") && Domain("1.2.3.4.com")
  {
    var h := "1.2.3.4.com";
    assert !Ipv4(h) by {
      if Ipv4(h) {
        Ipv4Ends(h);
      }
    }
    assert Labels(h, 2) by {
      assert h[..1] == "1";
    }
    assert Labels(h, 4) by {
      assert h[2..3] == "2";
    }
    assert Labels(h, 6) by {
      assert h[4..5] == "3";
    }
    assert Labels(h, 8) by {
      assert h[6..7] == "4";
    }
    assert h[8..] == "com";
  }

  /** `1.2.3.4` alone is a dotted quad. */
  lemma ShortQuad()
    ensures Ipv4("1.2.3.4")
  {
    var q := "1.2.3.4";
    assert q[..1] == "1" && q[2..3] == "2" && q[4..5] == "3" && q[6..] == "4";
    assert DottedQuadAt(q, 1, 3, 5);
  }

  /** What follows `1.2.3.4` in `http://1.2.3.4.com` starts with '.', so it is neither a port nor a path. */
  lemma DotComIsNoPortOrPath()
    ensures forall k | 14 <= k <= 18 :: !(Port("http://1.2.3.4.com"[14..k]) && Path("http://1.2.3.4.com"[k..]))
  {
    var s := "http://1.2.3.4.com";
    assert s[14] == '.';
    forall k | 14 <= k <= 18 ensures !(Port(s[14..k]) && Path(s[k..])) {
      if k == 14 {
        assert s[k..][0] == '.';
      } else {
        assert s[14..k][0] == '.';
      }
    }
  }

  /**
   * `http://1.2.3.4.com`: the address alternative matches `1.2.3.4`, but the
   * rest `.com` is neither a port nor a path, so a matcher has to backtrack;
   * the whole host is a dotted name instead.
   */
  lemma BacktracksToDomain()
    ensures Ipv4("1.2.3.4")
    ensures forall k | 14 <= k <= 18 :: !(Port("http://1.2.3.4.com"[14..k]) && Path("http://1.2.3.4.com"[k..]))
    ensures Matches("http://1.2.3.4.com")
  {
    ShortQuad();
    DotComIsNoPortOrPath();
    AcceptsNumericDomain();
  }

  /** `http://1.2.3.4.com` is accepted with its whole host read as a dotted name. */
  lemma AcceptsNumericDomain()
    ensures Matches("http://1.2.3.4.com")
  {
    var s := "http://1.2.3.4.com";
    NumericLabelsDomain();
    assert s[..7] == "http://";
    assert s[7..|s|] == "1.2.3.4.com";
    assert HostAt(s, 7, |s|);
    assert SplitAt(s, 7, |s|, |s|);
  }
}
