/** `extractVideoId`: the first match of `(?:v=|\/|youtu\.be\/)([a-zA-Z0-9_-]{11})` in a
    URL, scanned the way a non-global JavaScript regular expression is: start positions
    from left to right, and at each position the three leads in the order written. */
module VideoId {
  import opened Basics

  /** Length of the captured group. */
  const IdLength: nat := 11

  /** `[a-zA-Z0-9_-]`. */
  predicate IsIdChar(c: char) {
    ('a' <= c <= 'z') || ('A' <= c <= 'Z') || ('0' <= c <= '9') || c == '_' || c == '-'
  }

  /** Eleven id characters start at position `k`. */
  predicate IdRunAt(t: string, k: nat) {
    k + IdLength <= |t| && forall j :: k <= j < k + IdLength ==> IsIdChar(t[j])
  }

  /** `lead` occurs at position `i`. */
  predicate LeadAt(t: string, i: nat, lead: string) {
    i + |lead| <= |t| && t[i..i + |lead|] == lead
  }

  /** The pattern matches at position `i` through `lead`. */
  predicate MatchWith(t: string, i: nat, lead: string) {
    LeadAt(t, i, lead) && IdRunAt(t, i + |lead|)
  }

  /** The pattern matches at position `i` through one of its three leads. */
  predicate MatchAt(t: string, i: nat) {
    MatchWith(t, i, "v=") || MatchWith(t, i, "/") || MatchWith(t, i, "youtu.be/")
  }

  /** No match starts anywhere in `[from, to)`. */
  predicate NoMatchIn(t: string, from: nat, to: nat) {
    forall j :: from <= j < to ==> !MatchAt(t, j)
  }

  /** Position `i` is where the regular expression's leftmost match starts. */
  predicate IsLeftmostMatch(t: string, i: nat) {
    MatchAt(t, i) && NoMatchIn(t, 0, i)
  }

  /** Group 1 of the match at `i`: the eleven characters after the first lead that matches there. */
  function CaptureAt(t: string, i: nat): (id: string)
    requires MatchAt(t, i)
    ensures |id| == IdLength && forall k :: 0 <= k < |id| ==> IsIdChar(id[k])
  {
    var k := if MatchWith(t, i, "v=") then i + 2 else if MatchWith(t, i, "/") then i + 1 else i + 9;
    t[k..k + IdLength]
  }

  /** The first match position at or after `i`, if there is one. */
  function FirstMatchFrom(t: string, i: nat): (r: Option<nat>)
    requires i <= |t|
    ensures r.Some? ==> i <= r.value < |t| && MatchAt(t, r.value) && NoMatchIn(t, i, r.value)
    ensures r.None? ==> NoMatchIn(t, i, |t|)
    decreases |t| - i
  {
    if i == |t| then None
    else if MatchAt(t, i) then Some(i)
    else FirstMatchFrom(t, i + 1)
  }

  /** `extractVideoId(url)`: the group of the leftmost match, or null when nothing matches. */
  function ExtractVideoId(url: string): (r: Option<string>)
    ensures r.Some? ==> |r.value| == IdLength && forall k :: 0 <= k < |r.value| ==> IsIdChar(r.value[k])
    ensures r.Some? ==> exists i :: 0 <= i < |url| && IsLeftmostMatch(url, i) && r.value == CaptureAt(url, i)
    ensures r.None? <==> NoMatchIn(url, 0, |url|)
  {
    match FirstMatchFrom(url, 0)
    case Some(i) => Some(CaptureAt(url, i))
    case None => None
  }

  /** A lead cannot occur where its first character is missing. */
  lemma NoLeadAt(t: string, i: nat, lead: string)
    requires |lead| > 0 && (i >= |t| || t[i] != lead[0])
    ensures !LeadAt(t, i, lead)
  {
    if i + |lead| <= |t| {
      assert t[i..i + |lead|][0] == t[i];
    }
  }

  /** No match at `j` when neither `v`, `/` nor `y` is there. */
  lemma NoMatchAtOtherChar(t: string, j: nat)
    requires j < |t| && t[j] != 'v' && t[j] != '/' && t[j] != 'y'
    ensures !MatchAt(t, j)
  {
    NoLeadAt(t, j, "v=");
    NoLeadAt(t, j, "/");
    NoLeadAt(t, j, "youtu.be/");
  }

  /** The start of every canonical watch-page URL. */
  const WatchPrefix: string := "https://www.youtube.com/watch?v="

  /** A run of id characters cannot cover a character that is not one. */
  lemma NoIdRunOver(t: string, k: nat, bad: nat)
    requires k <= bad < k + IdLength && bad < |t| && !IsIdChar(t[bad])
    ensures !IdRunAt(t, k)
  {
  }

  /** A `/` that is not followed by eleven id characters starts no match. */
  lemma SlashWithoutId(t: string, j: nat, bad: nat)
    requires j < |t| && t[j] == '/'
    requires j + 1 <= bad < j + 1 + IdLength && bad < |t| && !IsIdChar(t[bad])
    ensures !MatchAt(t, j)
  {
    NoIdRunOver(t, j + 1, bad);
    NoLeadAt(t, j, "v=");
    NoLeadAt(t, j, "youtu.be/");
  }

  /** Character `k` of a string that starts with the watch-page prefix. */
  lemma WatchChar(t: string, k: nat)
    requires 32 <= |t| && t[..32] == WatchPrefix && k < 32
    ensures t[k] == WatchPrefix[k]
  {
    assert t[..32][k] == t[k];
  }

  /** The pattern does not match anywhere before the `v=` of a watch-page URL: the slashes
      and the `y` of `youtube` are followed by something other than an id. */
  lemma NoMatchBeforeWatchId(t: string)
    requires 32 <= |t| && t[..32] == WatchPrefix
    ensures NoMatchIn(t, 0, 30)
  {
    forall j | 0 <= j < 30 ensures !MatchAt(t, j) {
      WatchChar(t, j);
      if j == 6 {
        WatchChar(t, 7);
        SlashWithoutId(t, 6, 7);
      } else if j == 7 {
        WatchChar(t, 11);
        SlashWithoutId(t, 7, 11);
      } else if j == 23 {
        WatchChar(t, 29);
        SlashWithoutId(t, 23, 29);
      } else if j == 12 {
        WatchChar(t, 17);
        assert !LeadAt(t, 12, "youtu.be/") by { assert t[12..21][5] == t[17]; }
        NoLeadAt(t, j, "v=");
        NoLeadAt(t, j, "/");
      } else {
        NoMatchAtOtherChar(t, j);
      }
    }
  }

  /** The canonical watch-page URL of a video hands back that video's id. */
  lemma WatchUrlYieldsId(id: string)
    requires |id| == IdLength && forall k :: 0 <= k < |id| ==> IsIdChar(id[k])
    ensures ExtractVideoId(WatchPrefix + id) == Some(id)
  {
    var t := WatchPrefix + id;
    assert t[..32] == WatchPrefix;
    NoMatchBeforeWatchId(t);
    assert MatchWith(t, 30, "v=") by {
      assert t[30..32] == "v=";
      assert t[32..43] == id;
    }
    assert IsLeftmostMatch(t, 30);
    assert CaptureAt(t, 30) == id;
  }

}
