/** `extractYouTubeId`: the regular expression
    `^.*(youtu.be\/|v\/|u\/\w\/|embed\/|watch\?v=|&v=)([^#&?]*).*`
    followed by the check that the captured identifier has exactly 11 characters,
    written out as the backtracking match a JavaScript engine performs. */
module YouTube {
  import opened Entries

  /** One position of an alternative of the first group: a literal character,
      `.` (any character but a line terminator) or `\w`. */
  datatype Atom = Char(c: char) | AnyChar | WordChar

  /** The characters JavaScript's `.` does not match (no `s` flag). */
  predicate IsLineTerminator(c: char) {
    c == '\n' || c == '\r' || c == '\U{2028}' || c == '\U{2029}'
  }

  /** `\w` without the `u` flag: ASCII letters, digits and underscore. */
  predicate IsWordChar(c: char) {
    ('a' <= c <= 'z') || ('A' <= c <= 'Z') || ('0' <= c <= '9') || c == '_'
  }

  /** The characters that end the captured identifier, `[^#&?]`'s complement. */
  predicate IsIdStop(c: char) {
    c == '#' || c == '&' || c == '?'
  }

  predicate Accepts(a: Atom, c: char) {
    match a
    case Char(x) => c == x
    case AnyChar => !IsLineTerminator(c)
    case WordChar => IsWordChar(c)
  }

  /** The alternatives of the first group, in the order the engine tries them. */
  function Alternatives(): seq<seq<Atom>> {
    [ [Char('y'), Char('o'), Char('u'), Char('t'), Char('u'), AnyChar, Char('b'), Char('e'), Char('/')],
      [Char('v'), Char('/')],
      [Char('u'), Char('/'), WordChar, Char('/')],
      [Char('e'), Char('m'), Char('b'), Char('e'), Char('d'), Char('/')],
      [Char('w'), Char('a'), Char('t'), Char('c'), Char('h'), Char('?'), Char('v'), Char('=')],
      [Char('&'), Char('v'), Char('=')] ]
  }

  /** Alternative `alt` matches the text of `url` that starts at `p`. */
  predicate MatchesAt(url: string, p: nat, alt: seq<Atom>) {
    p + |alt| <= |url| && forall j :: 0 <= j < |alt| ==> Accepts(alt[j], url[p + j])
  }

  /** The index of the first alternative, from the `k`-th on, that matches at `p`. */
  function FirstAlternativeFrom(url: string, p: nat, k: nat): (r: Option<nat>)
    requires k <= |Alternatives()|
    ensures r.Some? ==> k <= r.value < |Alternatives()| && MatchesAt(url, p, Alternatives()[r.value])
    ensures r.Some? ==> forall k' :: k <= k' < r.value ==> !MatchesAt(url, p, Alternatives()[k'])
    ensures r.None? ==> forall k' :: k <= k' < |Alternatives()| ==> !MatchesAt(url, p, Alternatives()[k'])
    decreases |Alternatives()| - k
  {
    if k == |Alternatives()| then None
    else if MatchesAt(url, p, Alternatives()[k]) then Some(k)
    else FirstAlternativeFrom(url, p, k + 1)
  }

  /** The alternative the engine uses when the group is tried at `p`. */
  function FirstAlternative(url: string, p: nat): Option<nat> {
    FirstAlternativeFrom(url, p, 0)
  }

  /** How far `^.*` can reach: the position of the first line terminator, or the end. */
  function LineEnd(url: string): (n: nat)
    ensures n <= |url|
    ensures forall i :: 0 <= i < n ==> !IsLineTerminator(url[i])
    ensures n < |url| ==> IsLineTerminator(url[n])
  {
    if url == [] || IsLineTerminator(url[0]) then 0 else 1 + LineEnd(url[1..])
  }

  /** The greedy `^.*` backtracking from `p` down to 0: the first position at which
      the group matches, with the alternative used there. */
  function LastMatch(url: string, p: nat): (r: Option<(nat, nat)>)
    requires p <= |url|
    ensures r.Some? ==> r.value.0 <= p && FirstAlternative(url, r.value.0) == Some(r.value.1)
    ensures r.Some? ==> forall q: nat :: r.value.0 < q <= p ==> FirstAlternative(url, q).None?
    ensures r.None? ==> forall q: nat :: q <= p ==> FirstAlternative(url, q).None?
    decreases p
  {
    match FirstAlternative(url, p)
    case Some(k) => Some((p, k))
    case None => if p == 0 then None else LastMatch(url, p - 1)
  }

  /** The greedy `[^#&?]*` from `i`: the end of the longest run without `#`, `&`, `?`. */
  function RunEnd(url: string, i: nat): (j: nat)
    requires i <= |url|
    ensures i <= j <= |url|
    ensures forall t :: i <= t < j ==> !IsIdStop(url[t])
    ensures j < |url| ==> IsIdStop(url[j])
    decreases |url| - i
  {
    if i == |url| || IsIdStop(url[i]) then i else RunEnd(url, i + 1)
  }

  /** `extractYouTubeId(url)`: the second capture group when the regex matches and
      it is 11 characters long, otherwise null. The trailing `.*` always matches, so
      the match never fails after the group has been found. */
  function ExtractYouTubeId(url: string): (id: Option<string>)
    ensures id.Some? ==> |id.value| == 11
    ensures id.Some? ==> forall t :: 0 <= t < |id.value| ==> !IsIdStop(id.value[t])
  {
    match LastMatch(url, LineEnd(url))
    case None => None
    case Some((p, k)) =>
      var from := p + |Alternatives()[k]|;
      var run := url[from..RunEnd(url, from)];
      if |run| == 11 then Some(run) else None
  }

  /** The group can start at `p`: `^.*` can reach it and alternative `k` is the first
      to match there; no position further right that `^.*` can reach has a match. */
  ghost predicate IsRightmostMatch(url: string, p: nat, k: nat) {
    && p <= LineEnd(url)
    && k < |Alternatives()|
    && MatchesAt(url, p, Alternatives()[k])
    && (forall k' :: 0 <= k' < k ==> !MatchesAt(url, p, Alternatives()[k']))
    && (forall q: nat, k' :: p < q <= LineEnd(url) && 0 <= k' < |Alternatives()| ==> !MatchesAt(url, q, Alternatives()[k']))
  }

  /** `url[from..to]` is a longest run of characters other than `#`, `&`, `?`. */
  ghost predicate IsMaximalRun(url: string, from: nat, to: nat) {
    && from <= to <= |url|
    && (forall t :: from <= t < to ==> !IsIdStop(url[t]))
    && (to < |url| ==> IsIdStop(url[to]))
  }

  lemma MaximalRunIsRunEnd(url: string, from: nat, to: nat)
    requires IsMaximalRun(url, from, to)
    ensures RunEnd(url, from) == to
  {
  }

  lemma FirstAlternativeIs(url: string, p: nat, k: nat)
    requires k < |Alternatives()|
    requires MatchesAt(url, p, Alternatives()[k])
    requires forall k' :: 0 <= k' < k ==> !MatchesAt(url, p, Alternatives()[k'])
    ensures FirstAlternative(url, p) == Some(k)
  {
  }

  /** Whenever the group matches somewhere, the result is the run after the
      rightmost match if that run has exactly 11 characters, and null otherwise. */
  lemma ExtractAtRightmostMatch(url: string, p: nat, k: nat, to: nat)
    requires IsRightmostMatch(url, p, k)
    requires IsMaximalRun(url, p + |Alternatives()[k]|, to)
    ensures var from := p + |Alternatives()[k]|;
            ExtractYouTubeId(url) == if to - from == 11 then Some(url[from..to]) else None
  {
    FirstAlternativeIs(url, p, k);
    var last := LastMatch(url, LineEnd(url));
    assert last.Some?;
    var (p', k') := last.value;
    assert p' == p && k' == k;
    MaximalRunIsRunEnd(url, p + |Alternatives()[k]|, to);
  }

  /** When no alternative matches at any position `^.*` can reach, the result is null. */
  lemma ExtractWithoutMatch(url: string)
    requires forall q: nat, k :: q <= LineEnd(url) && 0 <= k < |Alternatives()| ==> !MatchesAt(url, q, Alternatives()[k])
    ensures ExtractYouTubeId(url) == None
  {
    var last := LastMatch(url, LineEnd(url));
    assert last.None?;
  }

  /** Every alternative holds a character that can only be '/', '&', or the '?' of
      `watch?v=` at offset 5: the marker this lemma points to. */
  lemma AlternativeMarker(url: string, q: nat, k: nat)
    requires k < |Alternatives()|
    requires MatchesAt(url, q, Alternatives()[k])
    ensures k == 0 ==> url[q + 8] == '/'
    ensures k == 1 || k == 2 ==> url[q + 1] == '/'
    ensures k == 3 ==> url[q + 5] == '/'
    ensures k == 4 ==> url[q + 5] == '?'
    ensures k == 5 ==> url[q] == '&'
  {
    var alt := Alternatives()[k];
    if k == 0 { assert alt[8] == Char('/'); }
    else if k == 1 || k == 2 { assert alt[1] == Char('/'); }
    else if k == 3 { assert alt[5] == Char('/'); }
    else if k == 4 { assert alt[5] == Char('?'); }
    else { assert alt[0] == Char('&'); }
  }

  /** A `watch?v=` URL: the identifier after `watch?v=` is returned exactly when it
      has 11 characters, as long as it holds none of '/', '#', '&', '?'. A longer or
      shorter identifier yields null. */
  lemma {:induction false} ExtractFromWatchUrl(prefix: string, videoId: string)
    requires forall i :: 0 <= i < |prefix| ==> !IsLineTerminator(prefix[i])
    requires forall i :: 0 <= i < |videoId| ==> videoId[i] != '/' && !IsIdStop(videoId[i])
    ensures ExtractYouTubeId(prefix + "watch?v=" + videoId)
         == if |videoId| == 11 then Some(videoId) else None
  {
    var url := prefix + "watch?v=" + videoId;
    var w := |prefix|;
    var from := w + 8;
    assert IsRightmostMatch(url, w, 4) by {
      forall i | w <= i < |url|
        ensures url[i] != '/' && url[i] != '&' && (url[i] == '?' ==> i == w + 5)
      {
        if i < from {
          assert url[i] == "watch?v="[i - w];
        } else {
          assert url[i] == videoId[i - from];
        }
      }
      forall i | 0 <= i < w ensures !IsLineTerminator(url[i]) {
        assert url[i] == prefix[i];
      }
      var lineEnd := LineEnd(url);
      assert w <= lineEnd;
      forall j | 0 <= j < 8 ensures url[w + j] == Alternatives()[4][j].c {
        assert url[w + j] == "watch?v="[j];
      }
      assert MatchesAt(url, w, Alternatives()[4]);
      forall q: nat, k | w < q <= lineEnd && 0 <= k < |Alternatives()|
        ensures !MatchesAt(url, q, Alternatives()[k])
      {
        if MatchesAt(url, q, Alternatives()[k]) {
          AlternativeMarker(url, q, k);
        }
      }
      assert url[w] == 'w';
      forall k' | 0 <= k' < 4 ensures !MatchesAt(url, w, Alternatives()[k']) {
        assert Alternatives()[k'][0].c != 'w';
      }
    }
    assert |Alternatives()[4]| == 8;
    assert url[from..|url|] == videoId;
    assert IsMaximalRun(url, from, |url|) by {
      forall t | from <= t < |url| ensures !IsIdStop(url[t]) {
        assert url[t] == videoId[t - from];
      }
    }
    ExtractAtRightmostMatch(url, w, 4, |url|);
  }
}
