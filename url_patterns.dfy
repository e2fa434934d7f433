/**
 * The two URL patterns of the API client, written out as scanners:
 *   file key:  figma\.com\/(?:file|design)\/([A-Za-z0-9]+)
 *   team id:   figma\.com\/files\/team\/([0-9]+)
 * A JavaScript `match` without the `g` flag reports the leftmost position at
 * which the pattern matches; the alternatives are tried in order there, and
 * the `+` capture is greedy.
 */
module UrlPatterns {
  import opened Wrappers
  import opened Text

  datatype Pattern = FileKey | TeamId

  const FILE_PREFIX: string := "figma.com/file/"
  const DESIGN_PREFIX: string := "figma.com/design/"
  const TEAM_PREFIX: string := "figma.com/files/team/"
  /** What every alternative of both patterns begins with. */
  const HOST_PATH: string := "figma.com/"

  /** The character class of the capture group. */
  predicate InClass(p: Pattern, c: char) {
    match p
    case FileKey => IsAlnum(c)
    case TeamId => IsDigit(c)
  }

  predicate AllInClass(p: Pattern, t: string) {
    forall i :: 0 <= i < |t| ==> InClass(p, t[i])
  }

  /** The greedy capture: the longest prefix of `t` made of class characters. */
  function Run(p: Pattern, t: string): (r: string)
    ensures |r| <= |t| && r == t[..|r|]
    ensures AllInClass(p, r)
    ensures |r| == |t| || !InClass(p, t[|r|])
  {
    if t != [] && InClass(p, t[0]) then [t[0]] + Run(p, t[1..]) else []
  }

  /** One literal alternative at index `i`, followed by a non-empty capture. */
  function CaptureWith(p: Pattern, s: string, i: nat, prefix: string): Option<string> {
    if OccursAt(s, prefix, i) && i + |prefix| < |s| && InClass(p, s[i + |prefix|])
    then Some(Run(p, s[i + |prefix|..]))
    else None
  }

  /** The pattern tried at index `i`, alternatives in source order. */
  function MatchAt(p: Pattern, s: string, i: nat): Option<string> {
    match p
    case FileKey =>
      (match CaptureWith(p, s, i, FILE_PREFIX)
       case Some(k) => Some(k)
       case None => CaptureWith(p, s, i, DESIGN_PREFIX))
    case TeamId => CaptureWith(p, s, i, TEAM_PREFIX)
  }

  /** The leftmost index at or after `i` where the pattern matches. */
  function Leftmost(p: Pattern, s: string, i: nat): (r: Option<nat>)
    ensures r.Some? ==> i <= r.value <= |s| && MatchAt(p, s, r.value).Some?
    ensures forall j :: i <= j <= |s| && (r.None? || j < r.value) ==> MatchAt(p, s, j).None?
    decreases |s| + 1 - i
  {
    if i > |s| then None
    else if MatchAt(p, s, i).Some? then Some(i)
    else Leftmost(p, s, i + 1)
  }

  /** `url.match(re)?.[1]`: the capture of the leftmost match, if any. */
  function Extract(p: Pattern, s: string): (r: Option<string>)
    ensures r.Some? ==> r.value != [] && AllInClass(p, r.value)
    ensures r.None? <==> forall j :: 0 <= j <= |s| ==> MatchAt(p, s, j).None?
    ensures r.Some? ==> exists i :: 0 <= i <= |s| && MatchAt(p, s, i) == r
  {
    match Leftmost(p, s, 0)
    case None => None
    case Some(i) => MatchAt(p, s, i)
  }

  /** The file key of a `figma.com/file/<key>` or `figma.com/design/<key>` URL. */
  function ExtractFileKey(url: string): (r: Option<string>)
    ensures r.Some? ==> r.value != [] && forall i :: 0 <= i < |r.value| ==> IsAlnum(r.value[i])
  {
    Extract(FileKey, url)
  }

  /** `FigmaClient.extractTeamId`: the digits after `figma.com/files/team/`. */
  function ExtractTeamId(url: string): (r: Option<string>)
    ensures r.Some? ==> r.value != [] && forall i :: 0 <= i < |r.value| ==> IsDigit(r.value[i])
  {
    Extract(TeamId, url)
  }

  /** The capture is the match at the leftmost matching index, wherever that is. */
  lemma ExtractIsLeftmost(p: Pattern, s: string, i: nat)
    requires i <= |s| && MatchAt(p, s, i).Some?
    requires forall j :: 0 <= j < i ==> MatchAt(p, s, j).None?
    ensures Extract(p, s) == MatchAt(p, s, i)
  {
    var r := Leftmost(p, s, 0);
    assert r.Some? && r.value == i;
  }

  /** The greedy run stops exactly at the first character outside the class. */
  lemma {:induction false} RunOfPlain(p: Pattern, t: string, rest: string)
    requires AllInClass(p, t)
    requires rest == [] || !InClass(p, rest[0])
    ensures Run(p, t + rest) == t
  {
    if t == [] {
      assert t + rest == rest;
    } else {
      RunOfPlain(p, t[1..], rest);
      assert (t + rest)[1..] == t[1..] + rest;
    }
  }

  /** Without `figma.com/` anywhere in the text neither pattern matches. */
  lemma NoHostNoMatch(p: Pattern, s: string)
    requires !Contains(s, HOST_PATH)
    ensures Extract(p, s) == None
  {
    forall j | 0 <= j <= |s| ensures MatchAt(p, s, j).None? {
      PrefixOccurrence(s, j, FILE_PREFIX);
      PrefixOccurrence(s, j, DESIGN_PREFIX);
      PrefixOccurrence(s, j, TEAM_PREFIX);
    }
  }

  lemma PrefixOccurrence(s: string, j: nat, prefix: string)
    requires |prefix| >= |HOST_PATH| && prefix[..|HOST_PATH|] == HOST_PATH
    requires !Contains(s, HOST_PATH)
    ensures !OccursAt(s, prefix, j)
  {
    if OccursAt(s, prefix, j) {
      assert s[j..j + |HOST_PATH|] == s[j..j + |prefix|][..|HOST_PATH|];
      assert OccursAt(s, HOST_PATH, j);
    }
  }

  const WWW: string := "https://www."

  lemma WwwHasNoF(s: string, j: nat)
    requires |WWW| <= |s| && s[..|WWW|] == WWW && j < |WWW|
    ensures s[j] != 'f'
  {
    assert s[j] == WWW[j];
  }

  lemma NotAtNonF(s: string, j: nat, prefix: string)
    requires prefix != [] && prefix[0] == 'f'
    requires j < |s| && s[j] != 'f'
    ensures !OccursAt(s, prefix, j)
  {
  }

  /**
   * A canonical file or design URL yields exactly the key it was built from,
   * whatever follows the key, as long as the key is not continued by another
   * letter or digit.
   */
  lemma FileKeyRoundTrip(prefix: string, key: string, rest: string)
    requires prefix == FILE_PREFIX || prefix == DESIGN_PREFIX
    requires key != [] && forall i :: 0 <= i < |key| ==> IsAlnum(key[i])
    requires rest == [] || !IsAlnum(rest[0])
    ensures ExtractFileKey(WWW + prefix + key + rest) == Some(key)
  {
    var s := WWW + prefix + key + rest;
    var at := |WWW|;
    assert s[..at] == WWW;
    forall j | 0 <= j < at ensures MatchAt(FileKey, s, j).None? {
      WwwHasNoF(s, j);
      NotAtNonF(s, j, FILE_PREFIX);
      NotAtNonF(s, j, DESIGN_PREFIX);
    }
    assert s[at..at + |prefix|] == prefix;
    assert s[at + |prefix|..] == key + rest;
    RunOfPlain(FileKey, key, rest);
    if prefix == DESIGN_PREFIX {
      assert s[at + 10] == 'd';
      assert !OccursAt(s, FILE_PREFIX, at);
    }
    assert MatchAt(FileKey, s, at) == Some(key);
    ExtractIsLeftmost(FileKey, s, at);
  }

  /** A canonical team listing URL yields exactly the team id it was built from. */
  lemma TeamIdRoundTrip(id: string, rest: string)
    requires id != [] && forall i :: 0 <= i < |id| ==> IsDigit(id[i])
    requires rest == [] || !IsDigit(rest[0])
    ensures ExtractTeamId(WWW + TEAM_PREFIX + id + rest) == Some(id)
  {
    var s := WWW + TEAM_PREFIX + id + rest;
    var at := |WWW|;
    assert s[..at] == WWW;
    forall j | 0 <= j < at ensures MatchAt(TeamId, s, j).None? {
      WwwHasNoF(s, j);
    }
    assert s[at..at + |TEAM_PREFIX|] == TEAM_PREFIX;
    assert s[at + |TEAM_PREFIX|..] == id + rest;
    RunOfPlain(TeamId, id, rest);
    assert MatchAt(TeamId, s, at) == Some(id);
    ExtractIsLeftmost(TeamId, s, at);
  }
}
