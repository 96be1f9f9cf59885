/** The two YouTube patterns that the add form and the gallery share, and
    the regular-expression search they are run with. Each pattern is a list
    of literal alternatives followed by a capture of eleven characters from
    `[a-zA-Z0-9_-]`; the search is unanchored and reports the leftmost match,
    trying the alternatives in order at each position. */
module YouTube {
  import opened Values

  /** `/(?:youtube\.com\/watch\?v=|youtu\.be\/|youtube\.com\/embed\/)([a-zA-Z0-9_-]{11})/` */
  const WatchOrShortOrEmbed: seq<string> := ["youtube.com/watch?v=", "youtu.be/", "youtube.com/embed/"]
  /** `/youtube\.com\/v\/([a-zA-Z0-9_-]{11})/` */
  const LegacyV: seq<string> := ["youtube.com/v/"]
  const Patterns: seq<seq<string>> := [WatchOrShortOrEmbed, LegacyV]

  const IdLength := 11

  /** The character class `[a-zA-Z0-9_-]`. */
  predicate IdChar(ch: char) {
    ('a' <= ch <= 'z') || ('A' <= ch <= 'Z') || ('0' <= ch <= '9') || ch == '_' || ch == '-'
  }

  predicate IsVideoId(id: string) {
    |id| == IdLength && forall k :: 0 <= k < |id| ==> IdChar(id[k])
  }

  /** Alternative `alt` followed by a video id matches `url` at position `i`. */
  predicate MatchesAt(url: string, i: int, alt: string) {
    0 <= i && i + |alt| + IdLength <= |url| &&
    url[i..i + |alt|] == alt && IsVideoId(url[i + |alt|..i + |alt| + IdLength])
  }

  /** The captured id when alternative `alt` matches at `i`. */
  function CaptureAt(url: string, i: nat, alt: string): (id: string)
    requires MatchesAt(url, i, alt)
    ensures IsVideoId(id)
  {
    url[i + |alt|..i + |alt| + IdLength]
  }

  /** Try the alternatives in order at one position. */
  function MatchAltsAt(url: string, i: nat, alts: seq<string>): (r: Option<string>)
    ensures r.Some? ==> IsVideoId(r.value)
    ensures r.Some? <==> exists k :: 0 <= k < |alts| && MatchesAt(url, i, alts[k])
  {
    if alts == [] then None
    else if MatchesAt(url, i, alts[0]) then Some(CaptureAt(url, i, alts[0]))
    else
      var r := MatchAltsAt(url, i, alts[1..]);
      assert forall k :: 1 <= k < |alts| ==> alts[k] == alts[1..][k - 1];
      r
  }

  /** The leftmost match at or after position `i`, as `String.prototype.match` reports it. */
  function Search(url: string, alts: seq<string>, i: nat): (r: Option<string>)
    ensures r.Some? ==> IsVideoId(r.value)
    decreases |url| + 1 - i
  {
    if i > |url| then None
    else match MatchAltsAt(url, i, alts)
      case Some(id) => Some(id)
      case None => Search(url, alts, i + 1)
  }

  /** The match of pattern `alts` anywhere in `url` (`pattern.exec(url)[1]`). */
  function Exec(url: string, alts: seq<string>): Option<string> {
    Search(url, alts, 0)
  }

  /** Some alternative of `alts` matches somewhere at or after `from`. */
  ghost predicate MatchesFrom(url: string, alts: seq<string>, from: nat) {
    exists i, k :: from <= i <= |url| && 0 <= k < |alts| && MatchesAt(url, i, alts[k])
  }

  /** The search succeeds exactly when some alternative matches at or after `from`. */
  lemma {:induction false} SearchFindsAny(url: string, alts: seq<string>, from: nat)
    ensures Search(url, alts, from).Some? <==> MatchesFrom(url, alts, from)
    decreases |url| + 1 - from
  {
    if from > |url| {
    } else if MatchAltsAt(url, from, alts).Some? {
      var k :| 0 <= k < |alts| && MatchesAt(url, from, alts[k]);
    } else {
      SearchFindsAny(url, alts, from + 1);
      if MatchesFrom(url, alts, from) {
        var i, k :| from <= i <= |url| && 0 <= k < |alts| && MatchesAt(url, i, alts[k]);
        assert i != from;
        assert MatchesFrom(url, alts, from + 1);
      }
    }
  }

  /** No alternative matches at any position in `[from, i)`. */
  predicate NoMatchBetween(url: string, alts: seq<string>, from: nat, i: nat) {
    forall j :: from <= j < i ==> MatchAltsAt(url, j, alts).None?
  }

  /** A successful search returns an eleven-character id: the capture of
      the first alternative that matches at the leftmost matching position `i`. */
  lemma {:induction false} SearchLeftmost(url: string, alts: seq<string>, from: nat) returns (i: nat)
    requires Search(url, alts, from).Some?
    ensures IsVideoId(Search(url, alts, from).value)
    ensures from <= i <= |url| && MatchAltsAt(url, i, alts) == Search(url, alts, from)
    ensures NoMatchBetween(url, alts, from, i)
    decreases |url| + 1 - from
  {
    if MatchAltsAt(url, from, alts).Some? {
      i := from;
    } else {
      i := SearchLeftmost(url, alts, from + 1);
    }
  }

  /** The pattern of index `k` tested against `url`. */
  function Capture(url: string, k: nat): Option<string>
    requires k < |Patterns|
  {
    Exec(url, Patterns[k])
  }

  /** One of the link prefixes, followed by eleven id characters, occurs
      somewhere in `url`. */
  ghost predicate HasVideoLink(url: string) {
    exists k, i, j :: 0 <= k < |Patterns| && 0 <= j < |Patterns[k]| && 0 <= i <= |url| &&
      MatchesAt(url, i, Patterns[k][j])
  }

  /** Either pattern captures an id exactly when a link prefix followed by a
      video id occurs in the URL; the shortest such link has twenty characters. */
  lemma CapturesFindLinks(url: string)
    ensures Capture(url, 0).Some? || Capture(url, 1).Some? <==> HasVideoLink(url)
    ensures HasVideoLink(url) ==> |url| >= 20
  {
    SearchFindsAny(url, Patterns[0], 0);
    SearchFindsAny(url, Patterns[1], 0);
    if HasVideoLink(url) {
      var k, i, j :| 0 <= k < |Patterns| && 0 <= j < |Patterns[k]| && 0 <= i <= |url| &&
        MatchesAt(url, i, Patterns[k][j]);
      assert |Patterns[k][j]| >= 9;
      assert MatchesFrom(url, Patterns[k], 0);
      assert Capture(url, k).Some?;
    }
  }

  /** `patterns.some(pattern => pattern.test(url))`: testing the two
      patterns is the same as looking for a link prefix followed by a video
      id anywhere in the URL. */
  function AnyPatternMatches(url: string): (ok: bool)
    ensures ok <==> HasVideoLink(url)
    ensures ok ==> |url| >= 20
  {
    CapturesFindLinks(url);
    Capture(url, 0).Some? || Capture(url, 1).Some?
  }
}
