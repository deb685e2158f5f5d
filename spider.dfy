/**
 * The crawler's per-page step: one item per `.mid` link on the page, in
 * page order, named after the link's file stem as the regular expression
 * `(.+)\/([^/]+)\.(.*)` extracts it under Python's `re.match`.
 */
module MidiSpider {
  import opened Wrappers

  /**
   * The item of midi_spider/items.py. The spider sets `name`, `link`,
   * `fileUrls` and `originUrl`; `url` and `files` stay unset.
   */
  datatype MidiFile = MidiFile(
    name: string,
    url: Option<string>,
    link: string,
    fileUrls: seq<string>,
    files: Option<seq<string>>,
    originUrl: string)

  /** No line break among the first `k` characters (Python's `.` never matches '\n'). */
  predicate NoNewlineBefore(l: string, k: int)
  {
    forall i :: 0 <= i < k && i < |l| ==> l[i] != '\n'
  }

  /**
   * The pattern matches a prefix of `l` with group 1 = l[..k], the slash at
   * `k`, group 2 = l[k+1..d] and the dot at `d`: group 1 is non-empty and
   * has no line break, group 2 is non-empty and has no slash. Group 3,
   * `(.*)`, always matches (the empty string at least), and `re.match` does
   * not need the match to reach the end of `l`.
   */
  predicate Fits(l: string, k: int, d: int)
    ensures Fits(l, k, d) ==>
              && 0 < k < d < |l|
              && '\n' !in l[..k]
              && |l[k + 1..d]| > 0 && '/' !in l[k + 1..d]
  {
    && 1 <= k && k + 2 <= d < |l|
    && l[k] == '/' && l[d] == '.'
    && NoNewlineBefore(l, k)
    && (forall i :: k < i < d ==> l[i] != '/')
  }

  /** Index of the first '/' at or after `i`, or |l|: where the run `[^/]+` starting at `i` must end. */
  function RunEnd(l: string, i: nat): (e: nat)
    requires i <= |l|
    ensures i <= e <= |l|
    ensures e < |l| ==> l[e] == '/'
    ensures forall j :: i <= j < e ==> l[j] != '/'
    decreases |l| - i
  {
    if i == |l| || l[i] == '/' then i else RunEnd(l, i + 1)
  }

  /** The last '.' at an index in [lo, hi), the greedy `[^/]+` backtracking to a dot. */
  function LastDot(l: string, lo: nat, hi: nat): (d: Option<nat>)
    requires hi <= |l|
    ensures d.None? <==> forall j :: lo <= j < hi ==> l[j] != '.'
    ensures d.Some? ==> lo <= d.value < hi && l[d.value] == '.'
    ensures d.Some? ==> forall j :: d.value < j < hi ==> l[j] != '.'
    decreases hi
  {
    if hi <= lo then None
    else if l[hi - 1] == '.' then Some(hi - 1)
    else LastDot(l, lo, hi - 1)
  }

  /** With the slash at `k`, the dots that complete a match are exactly those of the run after it. */
  lemma FitsAtSlash(l: string, k: nat)
    requires 1 <= k < |l| && l[k] == '/' && NoNewlineBefore(l, k)
    ensures forall d :: Fits(l, k, d) <==> k + 2 <= d < RunEnd(l, k + 1) && l[d] == '.'
  {
  }

  /**
   * The backtracking search of `re.match`: the greedy `(.+)` tries the
   * rightmost slash first (from index `k` down), and for a slash the
   * greedy `[^/]+` tries the rightmost dot of its run first.
   */
  function SearchFrom(l: string, k: nat): (m: Option<(nat, nat)>)
    requires k < |l|
    ensures m.None? ==> forall k', d :: k' <= k ==> !Fits(l, k', d)
    ensures m.Some? ==> m.value.0 <= k && Fits(l, m.value.0, m.value.1)
    ensures m.Some? ==> forall k', d :: k' <= k && Fits(l, k', d) ==>
                          k' < m.value.0 || (k' == m.value.0 && d <= m.value.1)
    decreases k
  {
    if k == 0 then None
    else
      var dot := if l[k] == '/' && NoNewlineBefore(l, k) then LastDot(l, k + 2, RunEnd(l, k + 1)) else None;
      if l[k] == '/' && NoNewlineBefore(l, k) then
        FitsAtSlash(l, k);
        if dot.Some? then Some((k, dot.value)) else SearchFrom(l, k - 1)
      else
        SearchFrom(l, k - 1)
  }

  /** The split `re.match` settles on: the slash and dot positions of the first match it finds. */
  function NameMatch(l: string): (m: Option<(nat, nat)>)
    ensures m.None? <==> forall k, d :: !Fits(l, k, d)
    ensures m.Some? ==> Fits(l, m.value.0, m.value.1)
    ensures m.Some? ==> forall k, d :: Fits(l, k, d) ==> k < m.value.0 || (k == m.value.0 && d <= m.value.1)
  {
    if |l| == 0 then None else SearchFrom(l, |l| - 1)
  }

  /** The item name: group 2 when the pattern matches, otherwise the whole link. */
  function ExtractName(l: string): (name: string)
    ensures NameMatch(l).None? ==> name == l
    ensures NameMatch(l).Some? ==> |name| > 0 && '/' !in name
  {
    match NameMatch(l)
    case Some((k, d)) => l[k + 1..d]
    case None => l
  }

  /** `l` splits as `a + "/" + b + "." + c` with the constraints the three groups put on `a` and `b`. */
  predicate Decomposes(l: string, a: string, b: string, c: string)
  {
    && l == a + "/" + b + "." + c
    && |a| > 0 && '\n' !in a
    && |b| > 0 && '/' !in b
  }

  /** The pattern matches exactly when the link splits as `a/b.c` with those constraints. */
  lemma MatchesIffDecomposes(l: string)
    ensures NameMatch(l).Some? <==> exists a, b, c :: Decomposes(l, a, b, c)
  {
    var m := NameMatch(l);
    if m.Some? {
      var (k, d) := m.value;
      var a, b, c := l[..k], l[k + 1..d], l[d + 1..];
      assert l == a + "/" + b + "." + c by {
        assert l == l[..k] + [l[k]] + l[k + 1..d] + [l[d]] + l[d + 1..];
      }
      assert Decomposes(l, a, b, c);
    }
    if a, b, c :| Decomposes(l, a, b, c) {
      var k, d := |a|, |a| + 1 + |b|;
      assert l[k] == '/' && l[d] == '.';
      assert forall i :: 0 <= i < k ==> l[i] == a[i];
      assert forall i :: k < i < d ==> l[i] == b[i - k - 1];
      assert Fits(l, k, d);
    }
  }

  /**
   * The name of an ordinary file link `a/b.e`, whose extension `e` holds
   * no slash and no dot, is its stem `b` (which may itself contain dots).
   */
  lemma NameOfFileLink(a: string, b: string, e: string)
    requires |a| > 0 && '\n' !in a
    requires |b| > 0 && '/' !in b
    requires '/' !in e && '.' !in e
    ensures ExtractName(a + "/" + b + "." + e) == b
  {
    var l := a + "/" + b + "." + e;
    var k, d := |a|, |a| + 1 + |b|;
    assert l[k] == '/' && l[d] == '.';
    assert forall i :: 0 <= i < k ==> l[i] == a[i];
    assert forall i :: k < i < d ==> l[i] == b[i - k - 1];
    assert forall i :: d < i < |l| ==> l[i] == e[i - d - 1];
    assert Fits(l, k, d);
    var m := NameMatch(l);
    assert m.value.0 == k && m.value.1 == d by {
      assert Fits(l, m.value.0, m.value.1);
    }
    assert l[k + 1..d] == b;
  }

  /** A link without a slash after its first character does not match and is its own name. */
  lemma NameWithoutDirectory(l: string)
    requires forall i :: 1 <= i < |l| ==> l[i] != '/'
    ensures ExtractName(l) == l
  {
  }

  /** A link whose stem is empty (`dir/.mid`) does not match either, and its name keeps the slash. */
  lemma NameOfEmptyStem()
    ensures ExtractName("x/.mid") == "x/.mid"
  {
  }

  /** The item `parse_midi_links` builds for link `l` on the page at `pageUrl`. */
  predicate IsItemFor(item: MidiFile, l: string, pageUrl: string, urljoin: string -> string)
  {
    && item.name == ExtractName(l)
    && item.originUrl == pageUrl
    && item.link == urljoin(l)
    && item.fileUrls == [item.link]
    && item.url.None? && item.files.None?
  }

  /**
   * `parse_midi_links`: for the `.mid` links found on the page (`links`,
   * in page order) and the page's URL resolver `urljoin`, builds one item
   * per link, in the same order.
   */
  method ParseMidiLinks(pageUrl: string, links: seq<string>, urljoin: string -> string)
    returns (out: seq<MidiFile>)
    ensures |out| == |links|
    ensures forall i :: 0 <= i < |links| ==> IsItemFor(out[i], links[i], pageUrl, urljoin)
  {
    out := [];
    for i := 0 to |links|
      invariant |out| == i
      invariant forall j :: 0 <= j < i ==> IsItemFor(out[j], links[j], pageUrl, urljoin)
    {
      var l := links[i];
      var link := urljoin(l);
      var item := MidiFile(ExtractName(l), None, link, [link], None, pageUrl);
      out := out + [item];
    }
  }
}
