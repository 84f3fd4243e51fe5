/**
 * How the YouTube adapter reads a video: the channel-name clean-up, the "official
 * channel" heuristic, and the split of a video title into (artist, song).
 *
 * The title split uses four regular expressions tried in order with `re.match` and
 * `re.IGNORECASE`, then five `re.sub` clean-ups. Each is written out here as the
 * function of the string it computes: group 1 is lazy, so it is the shortest prefix
 * after which the rest of the pattern can match; group 2 is lazy too, so it ends at
 * the first place from which only the optional trailing `(...)`/`[...]` groups remain.
 */
module YoutubeTitles {
  import opened Wrappers
  import opened Strings
  import opened Seqs

  // ---------------------------------------------------------------- channel names

  /** The suffixes YouTube appends to generated channel names, removed in this order. */
  const CleanSuffixes: seq<string> := [" - Topic", " - Auto-generated by YouTube"]

  function DropSuffix(s: string, suffix: string): (r: string)
    ensures |r| <= |s|
    ensures EndsWith(s, suffix) && suffix != [] ==> |r| < |s|
    ensures !EndsWith(s, suffix) ==> r == s
  {
    if EndsWith(s, suffix) then Strip(s[..|s| - |suffix|]) else s
  }

  function DropSuffixes(s: string, suffixes: seq<string>): (r: string)
    decreases |suffixes|
    ensures |r| <= |s|
  {
    if suffixes == [] then s else DropSuffixes(DropSuffix(s, suffixes[0]), suffixes[1..])
  }

  /** `_clean_artist_name` as a function of the channel title. */
  function CleanedArtist(channel: string): string {
    if channel == "" then "" else DropSuffixes(channel, CleanSuffixes)
  }

  /** `_clean_artist_name`: each generated suffix in turn is cut off and the rest trimmed. */
  method CleanArtistName(channelTitle: string) returns (cleaned: string)
    ensures cleaned == CleanedArtist(channelTitle)
  {
    if channelTitle == "" {
      return "";
    }
    cleaned := channelTitle;
    var i := 0;
    while i < |CleanSuffixes|
      invariant 0 <= i <= |CleanSuffixes|
      invariant DropSuffixes(cleaned, CleanSuffixes[i..]) == DropSuffixes(channelTitle, CleanSuffixes)
    {
      var suffix := CleanSuffixes[i];
      assert CleanSuffixes[i..][1..] == CleanSuffixes[i + 1..];
      if EndsWith(cleaned, suffix) {
        cleaned := Strip(cleaned[..|cleaned| - |suffix|]);
      }
      i := i + 1;
    }
  }

  /** A name is left exactly as it is if and only if it ends in neither generated suffix. */
  lemma CleanedArtistUnchangedIff(s: string)
    ensures CleanedArtist(s) == s <==> !EndsWith(s, " - Topic") && !EndsWith(s, " - Auto-generated by YouTube")
  {
    if s != "" {
      var once := DropSuffix(s, CleanSuffixes[0]);
      assert CleanSuffixes[1..][1..] == [];
      assert CleanedArtist(s) == DropSuffix(once, CleanSuffixes[1]);
    }
  }

  /** Cleaning never leaves whitespace at either end of a name that had none. */
  lemma CleanedArtistStripped(s: string)
    requires IsStripped(s)
    ensures IsStripped(CleanedArtist(s))
  {
    if s != "" {
      var once := DropSuffix(s, CleanSuffixes[0]);
      assert CleanSuffixes[1..][1..] == [];
      assert CleanedArtist(s) == DropSuffix(once, CleanSuffixes[1]);
    }
  }

  /** A suffix can only be there if all of its characters occur in the name. */
  lemma NotEndsWithMissingChar(s: string, suffix: string, c: char)
    requires c in suffix && c !in s
    ensures !EndsWith(s, suffix)
  {
    var k :| 0 <= k < |suffix| && suffix[k] == c;
    if |suffix| <= |s| {
      assert s[|s| - |suffix| + k] in s;
    }
  }

  /** A name without a dash is never changed. */
  lemma CleanedArtistNoDash(s: string)
    requires '-' !in s
    ensures CleanedArtist(s) == s
  {
    NotEndsWithMissingChar(s, " - Topic", '-');
    NotEndsWithMissingChar(s, " - Auto-generated by YouTube", '-');
    CleanedArtistUnchangedIff(s);
  }

  lemma CleanedArtistTopicExample()
    ensures CleanedArtist("Artist - Topic") == "Artist"
    ensures CleanedArtist("") == ""
  {
    assert EndsWith("Artist - Topic", " - Topic");
    var once := DropSuffix("Artist - Topic", " - Topic");
    assert "Artist - Topic"[..6] == "Artist";
    StripOfStripped("Artist");
    assert once == "Artist";
    assert CleanSuffixes[1..][1..] == [];
  }

  // ---------------------------------------------------------------- official channels

  const OfficialIndicators: seq<string> := ["VEVO", "Official", "Records", "Music", "Entertainment"]

  /** Markers of a generated channel; unlike the indicators these are matched case-sensitively. */
  const AutoMarkers: seq<string> := ["- Auto-generated by YouTube", "Auto-Generated"]

  /** Whether any of `needles` occurs in `hay`, tried in order. */
  function AnyIn(hay: string, needles: seq<string>): (r: bool)
    ensures r <==> exists k :: 0 <= k < |needles| && Contains(hay, needles[k])
  {
    if needles == [] then false
    else if Contains(hay, needles[0]) then true
    else
      var r := AnyIn(hay, needles[1..]);
      assert forall k :: 1 <= k < |needles| ==> needles[1..][k - 1] == needles[k];
      r
  }

  function LowerAll(xs: seq<string>): (r: seq<string>)
    ensures |r| == |xs| && forall k :: 0 <= k < |xs| ==> r[k] == Lower(xs[k])
  {
    seq(|xs|, k requires 0 <= k < |xs| => Lower(xs[k]))
  }

  /** Some indicator occurs in the name, ignoring case. */
  predicate HasIndicator(name: string) {
    exists k :: 0 <= k < |OfficialIndicators| && Contains(Lower(name), Lower(OfficialIndicators[k]))
  }

  /** Some generated-channel marker occurs in the name. */
  predicate HasAutoMarker(name: string) {
    exists k :: 0 <= k < |AutoMarkers| && Contains(name, AutoMarkers[k])
  }

  /**
   * `_is_official_channel`: never for an empty name or a `" - Topic"` channel; otherwise
   * when an indicator occurs in it, ignoring case, or failing that when it carries no
   * generated-channel marker.
   */
  function IsOfficialChannel(channel: string): (r: bool)
    ensures channel == "" ==> !r
    ensures EndsWith(channel, " - Topic") ==> !r
    ensures channel != "" && !EndsWith(channel, " - Topic") ==>
      (r <==> HasIndicator(channel) || !HasAutoMarker(channel))
  {
    if channel == "" then false
    else if EndsWith(channel, " - Topic") then false
    else if AnyIn(Lower(channel), LowerAll(OfficialIndicators)) then true
    else !AnyIn(channel, AutoMarkers)
  }

  lemma OfficialChannelIndicatorExample()
    ensures IsOfficialChannel("Queen Official")
  {
    NotEndsWithMissingChar("Queen Official", " - Topic", '-');
    assert Lower("Queen Official")[6..14] == "official";
    assert Lower(OfficialIndicators[1]) == "official";
    assert OccursAt(Lower("Queen Official"), Lower(OfficialIndicators[1]), 6);
  }

  lemma OfficialChannelTopicExample()
    ensures !IsOfficialChannel("SomeArtist - Topic")
    ensures !IsOfficialChannel("ArtistVEVO - Topic")
  {
    assert EndsWith("SomeArtist - Topic", " - Topic");
    assert EndsWith("ArtistVEVO - Topic", " - Topic");
  }

  lemma OfficialChannelNoMarkerExample()
    ensures IsOfficialChannel("Random Uploads")
  {
    NotEndsWithMissingChar("Random Uploads", " - Topic", '-');
    NotContainsFirstChar("Random Uploads", AutoMarkers[0]);
    NotContainsFirstChar("Random Uploads", AutoMarkers[1]);
  }

  // ---------------------------------------------------------------- title patterns

  /**
   * The four title patterns, in the order they are tried:
   * `Artist - Song` (hyphen, en dash or em dash), `Song by Artist`, `Artist: Song`,
   * `Artist | Song`; each may be followed by a `(...)` group and then a `[...]` group.
   */
  datatype Separator = Dash | By | Colon | Pipe

  const TitlePatterns: seq<Separator> := [Dash, By, Colon, Pipe]

  predicate IsDashChar(c: char) {
    c == '-' || c == '\U{2013}' || c == '\U{2014}'
  }

  /** Whitespace the pattern demands after the separator: `\s+` after "by", `\s*` elsewhere. */
  function MinSpaceAfter(sep: Separator): nat {
    if sep == By then 1 else 0
  }

  /**
   * Where the separator ends when group 1 is `t[..i]`, or `None` when the separator
   * cannot start there. The whitespace before it is taken greedily; since no separator
   * starts with whitespace, giving some back never helps.
   */
  function SeparatorEnd(sep: Separator, t: string, i: nat): (r: Option<nat>)
    requires i <= |t|
    ensures r.Some? ==> i < r.value <= |t|
  {
    var n := LeadingSpaces(t[i..]);
    var q := i + n;
    match sep
    case Dash => if q < |t| && IsDashChar(t[q]) then Some(q + 1) else None
    case Pipe => if q < |t| && t[q] == '|' then Some(q + 1) else None
    case Colon => if i < |t| && t[i] == ':' then Some(i + 1) else None
    case By =>
      if n >= 1 && q + 2 <= |t| && LowerChar(t[q]) == 'b' && LowerChar(t[q + 1]) == 'y' then Some(q + 2)
      else None
  }

  /** `\s*\[.*\]$` */
  predicate BracketTail(s: string) {
    var v := LStrip(s);
    |v| >= 2 && v[0] == '[' && v[|v| - 1] == ']'
  }

  /** `\s*\(.*\)(?:\s*\[.*\])?$` */
  predicate ParenTail(s: string) {
    var v := LStrip(s);
    |v| >= 2 && v[0] == '(' &&
    exists e :: 1 <= e < |v| && v[e] == ')' && (e + 1 == |v| || BracketTail(v[e + 1..]))
  }

  /** What may follow group 2 up to the end: nothing, a `(...)` group, a `[...]` group, or both. */
  predicate TrailingGroups(s: string) {
    s == [] || ParenTail(s) || BracketTail(s)
  }

  /** Text whose first non-space character opens no group cannot be the trailing groups. */
  lemma NotTrailingGroups(w: string)
    requires LStrip(w) != [] && LStrip(w)[0] != '(' && LStrip(w)[0] != '['
    ensures !TrailingGroups(w)
  {
  }

  /** The end of the lazy group 2 in `u`: the first `r >= 1` after which only trailing groups remain. */
  function GroupEnd(u: string): (r: nat)
    requires u != []
    ensures 1 <= r <= |u|
  {
    var p := (k: nat) => k <= |u| && TrailingGroups(u[k..]);
    var e := FirstFrom(p, 1, |u| + 1);
    if e.Some? then e.value else |u|
  }

  /** Group 2 ends where only trailing groups remain, and at the first such place. */
  lemma GroupEndFirst(u: string)
    requires u != []
    ensures TrailingGroups(u[GroupEnd(u)..])
    ensures forall k :: 1 <= k < GroupEnd(u) ==> !TrailingGroups(u[k..])
  {
    var p := (k: nat) => k <= |u| && TrailingGroups(u[k..]);
    assert forall k: nat :: p(k) == (k <= |u| && TrailingGroups(u[k..]));
    assert u[|u|..] == [];
    assert p(|u|);
    assert FirstFrom(p, 1, |u| + 1).Some?;
  }

  /**
   * Group 2 read from the text `r` after the separator. The whitespace before it is
   * taken greedily; only when the rest is all whitespace does the engine give one
   * whitespace character back so that group 2 is not empty.
   */
  function Group2(r: string, minSpace: nat): Option<string> {
    var k := LeadingSpaces(r);
    if k < minSpace then None
    else if k < |r| then
      var u := r[k..];
      Some(u[..GroupEnd(u)])
    else if k >= minSpace + 1 then Some(r[k - 1..k])
    else None
  }

  /** The pattern for `sep` matches with group 1 equal to `t[..i]`. */
  predicate MatchesAt(sep: Separator, t: string, i: nat) {
    i <= |t| &&
    var e := SeparatorEnd(sep, t, i);
    e.Some? && Group2(t[e.value..], MinSpaceAfter(sep)).Some?
  }

  /** The length of the shortest group 1 with which the pattern for `sep` matches. */
  function MatchIndex(sep: Separator, t: string): (m: Option<nat>)
    ensures m.Some? ==> 1 <= m.value < |t| && MatchesAt(sep, t, m.value)
  {
    var p := (k: nat) => MatchesAt(sep, t, k);
    assert forall k: nat :: p(k) == MatchesAt(sep, t, k);
    FirstFrom(p, 1, |t|)
  }

  /** The match found has the shortest group 1, and when none is found no group 1 works. */
  lemma MatchIndexFirst(sep: Separator, t: string)
    ensures var m := MatchIndex(sep, t);
            (m.Some? ==> forall k :: 1 <= k < m.value ==> !MatchesAt(sep, t, k))
            && (m.None? ==> forall k :: 1 <= k < |t| ==> !MatchesAt(sep, t, k))
  {
    var p := (k: nat) => MatchesAt(sep, t, k);
    assert forall k: nat :: p(k) == MatchesAt(sep, t, k);
    assert MatchIndex(sep, t) == FirstFrom(p, 1, |t|);
  }

  /** Groups 1 and 2 of the match whose group 1 is `t[..i]`. */
  function GroupsAt(sep: Separator, t: string, i: nat): (string, string)
    requires i <= |t| && MatchesAt(sep, t, i)
  {
    (t[..i], Group2(t[SeparatorEnd(sep, t, i).value..], MinSpaceAfter(sep)).value)
  }

  /** `re.match(pattern, title, re.IGNORECASE).groups()` for the pattern of `sep`. */
  function TitleMatch(sep: Separator, t: string): Option<(string, string)> {
    var k := MatchIndex(sep, t);
    if k.Some? then Some(GroupsAt(sep, t, k.value)) else None
  }

  /** A match whose group 1 is `t[..i]`, with no shorter group 1 possible, is the match. */
  lemma TitleMatchAt(sep: Separator, t: string, i: nat)
    requires 1 <= i < |t| && MatchesAt(sep, t, i)
    requires forall k :: 1 <= k < i ==> !MatchesAt(sep, t, k)
    ensures TitleMatch(sep, t) == Some(GroupsAt(sep, t, i))
  {
    MatchIndexFirst(sep, t);
  }

  /** The character that starts the separator of `sep`, up to case. */
  predicate StartsSeparator(sep: Separator, c: char) {
    match sep
    case Dash => IsDashChar(c)
    case By => c == 'b' || c == 'B'
    case Colon => c == ':'
    case Pipe => c == '|'
  }

  /** A title in which the separator's first character never occurs does not match its pattern. */
  lemma NoSeparatorNoMatch(sep: Separator, t: string)
    requires forall c :: c in t ==> !StartsSeparator(sep, c)
    ensures TitleMatch(sep, t).None?
  {
    MatchIndexFirst(sep, t);
    forall i | 1 <= i < |t| ensures SeparatorEnd(sep, t, i).None? {
      var n := LeadingSpaces(t[i..]);
      var q := i + n;
      if q < |t| {
        assert t[q] == t[i..][n];
        assert t[q] in t;
      }
      assert t[i] in t;
    }
  }

  // ---------------------------------------------------------------- clean-up substitutions

  /**
   * One `re.sub(r'\s*OPENER...', '', s, flags=re.IGNORECASE)`: `opener` is the literal
   * text in lower case; with a `closer` the match runs lazily to the first `closer`.
   */
  datatype Decoration = Decoration(opener: string, closer: Option<char>)

  /** The clean-ups applied to a parsed song title, in order. */
  const SongDecorations: seq<Decoration> := [
    Decoration("(official", Some(')')),
    Decoration("[official", Some(']')),
    Decoration("(music video)", None),
    Decoration("(lyric video)", None),
    Decoration("(audio)", None)]

  /** The clean-ups applied to an unparsed video title. */
  const OfficialDecorations: seq<Decoration> := SongDecorations[..2]

  /** The first position at or after `from` holding `c`. */
  function IndexOf(s: string, c: char, from: nat): (r: Option<nat>)
    ensures r.Some? ==> from <= r.value < |s| && s[r.value] == c
    ensures r.Some? ==> forall k :: from <= k < r.value ==> s[k] != c
    ensures r.None? ==> forall k :: from <= k < |s| ==> s[k] != c
    decreases |s| - from
  {
    if from >= |s| then None
    else if s[from] == c then Some(from)
    else IndexOf(s, c, from + 1)
  }

  /** Where a match of the clean-up pattern starting at `p` ends, if one starts there. */
  function DecorationEnd(s: string, p: nat, d: Decoration): (r: Option<nat>)
    requires p <= |s|
    ensures r.Some? ==> p < r.value <= |s|
  {
    var q := p + LeadingSpaces(s[p..]);
    var m := |d.opener|;
    if d.opener != [] && q + m <= |s| && Lower(s[q..q + m]) == d.opener then
      match d.closer
      case None => Some(q + m)
      case Some(c) =>
        var k := IndexOf(s, c, q + m);
        if k.Some? then Some(k.value + 1) else None
    else None
  }

  /** `re.sub` scanning from `p`: matches are removed, every other character is kept. */
  function RemoveFrom(s: string, d: Decoration, p: nat): (r: string)
    requires p <= |s|
    ensures |r| <= |s| - p
    decreases |s| - p
  {
    if p == |s| then []
    else
      var e := DecorationEnd(s, p, d);
      if e.Some? then RemoveFrom(s, d, e.value) else [s[p]] + RemoveFrom(s, d, p + 1)
  }

  function RemoveDecoration(s: string, d: Decoration): (r: string)
    ensures |r| <= |s|
  {
    RemoveFrom(s, d, 0)
  }

  function RemoveDecorations(s: string, ds: seq<Decoration>): (r: string)
    decreases |ds|
    ensures |r| <= |s|
  {
    if ds == [] then s else RemoveDecorations(RemoveDecoration(s, ds[0]), ds[1..])
  }

  /** Text in which the opening character never occurs is left alone. */
  lemma {:induction false} RemoveFromAbsent(s: string, d: Decoration, p: nat)
    requires p <= |s| && d.opener != []
    requires forall c :: c in s ==> LowerChar(c) != d.opener[0]
    ensures RemoveFrom(s, d, p) == s[p..]
    decreases |s| - p
  {
    if p < |s| {
      var q := p + LeadingSpaces(s[p..]);
      if q + |d.opener| <= |s| {
        assert s[q] in s;
        assert Lower(s[q..q + |d.opener|])[0] == LowerChar(s[q]);
      }
      RemoveFromAbsent(s, d, p + 1);
      assert s[p..] == [s[p]] + s[p + 1..];
    }
  }

  /** None of the clean-ups touches text without `(` or `[`. */
  lemma RemoveDecorationsAbsent(s: string, ds: seq<Decoration>)
    requires '(' !in s && '[' !in s
    requires forall k :: 0 <= k < |ds| ==> ds[k].opener != [] && ds[k].opener[0] in {'(', '['}
    ensures RemoveDecorations(s, ds) == s
  {
    if ds != [] {
      RemoveFromAbsent(s, ds[0], 0);
      assert s[0..] == s;
      RemoveDecorationsAbsent(s, ds[1..]);
    }
  }

  /** `(Official ...)` at the end of a song title is removed together with the space before it. */
  lemma OfficialGroupRemoved(song: string, x: string)
    requires '(' !in song && IsStripped(song) && song != []
    requires ')' !in x
    ensures RemoveDecoration(song + " (Official" + x + ")", SongDecorations[0]) == song
  {
    var d := SongDecorations[0];
    var s := song + " (Official" + x + ")";
    var n := |song|;
    forall q | 0 <= q < n ensures LowerChar(s[q]) != d.opener[0] {
      assert s[q] == song[q] && song[q] in song;
    }
    assert s[n - 1] == song[n - 1];
    NoDecorationBefore(s, d, n);
    OfficialGroupAt(song, x);
    RemoveFromPrefix(s, d, song, 0);
  }

  /** No clean-up match starts before `n` when its opening character does not occur before `n`. */
  lemma NoDecorationBefore(s: string, d: Decoration, n: nat)
    requires 1 <= n <= |s| && !IsSpace(s[n - 1]) && d.opener != []
    requires forall q :: 0 <= q < n ==> LowerChar(s[q]) != d.opener[0]
    ensures forall p :: 0 <= p < n ==> DecorationEnd(s, p, d).None?
  {
    forall p | 0 <= p < n ensures DecorationEnd(s, p, d).None? {
      var w := s[p..];
      assert w[n - 1 - p] == s[n - 1];
      var q := p + LeadingSpaces(w);
      assert q <= n - 1;
      assert s[q] == w[q - p];
      if q + |d.opener| <= |s| {
        assert Lower(s[q..q + |d.opener|])[0] == LowerChar(s[q]);
      }
    }
  }

  lemma OfficialGroupAt(song: string, x: string)
    requires ')' !in x
    ensures var s := song + " (Official" + x + ")";
            DecorationEnd(s, |song|, SongDecorations[0]) == Some(|s|)
  {
    var s := song + " (Official" + x + ")";
    var n := |song|;
    assert s[n..][0] == ' ' && s[n..][1] == '(';
    assert LeadingSpaces(s[n..]) == 1;
    assert s[n + 1..n + 10] == "(Official";
    assert Lower("(Official") == "(official";
    forall k | n + 10 <= k < |s| - 1 ensures s[k] != ')' {
      assert s[k] == x[k - n - 10];
      assert x[k - n - 10] in x;
    }
    assert s[|s| - 1] == ')';
    assert IndexOf(s, ')', n + 10) == Some(|s| - 1);
  }

  /** Before position `|keep|`, where no match starts, every character is kept. */
  lemma {:induction false} RemoveFromPrefix(s: string, d: Decoration, keep: string, p: nat)
    requires p <= |keep| < |s| && s[..|keep|] == keep
    requires forall k :: p <= k < |keep| ==> DecorationEnd(s, k, d).None?
    requires DecorationEnd(s, |keep|, d) == Some(|s|)
    ensures RemoveFrom(s, d, p) == keep[p..]
    decreases |keep| - p
  {
    if p < |keep| {
      RemoveFromPrefix(s, d, keep, p + 1);
      assert s[p] == keep[p];
      assert keep[p..] == [keep[p]] + keep[p + 1..];
    } else {
      assert RemoveFrom(s, d, |s|) == [];
    }
  }

  // ---------------------------------------------------------------- the title parser

  /** Which pattern matched first, with its two groups, or that none did. */
  datatype Outcome = Matched(sep: Separator, group1: string, group2: string) | NoMatch

  /** Trying the patterns `ps` in order; the first one that matches decides. */
  function FirstPattern(t: string, ps: seq<Separator>): (o: Outcome)
    ensures o.Matched? ==> o.sep in ps && TitleMatch(o.sep, t) == Some((o.group1, o.group2))
    ensures o.NoMatch? <==> forall j :: 0 <= j < |ps| ==> TitleMatch(ps[j], t).None?
    decreases |ps|
  {
    if ps == [] then NoMatch
    else
      var m := TitleMatch(ps[0], t);
      if m.Some? then Matched(ps[0], m.value.0, m.value.1)
      else
        var o := FirstPattern(t, ps[1..]);
        assert forall j :: 1 <= j < |ps| ==> ps[1..][j - 1] == ps[j];
        o
  }

  /** The (artist, song) pair a match yields; only the "by" pattern lists the song first. */
  function Finish(sep: Separator, g1: string, g2: string): (string, string) {
    var (artist, song) := if sep == By then (Strip(g2), Strip(g1)) else (Strip(g1), Strip(g2));
    (CleanedArtist(artist), Strip(RemoveDecorations(song, SongDecorations)))
  }

  /** The result when no pattern matches: the cleaned channel and the cleaned title. */
  function Fallback(videoTitle: string, channelTitle: string): (string, string) {
    (CleanedArtist(channelTitle), Strip(RemoveDecorations(videoTitle, OfficialDecorations)))
  }

  /** `_parse_track_from_title` */
  function ParseTitle(videoTitle: string, channelTitle: string): (string, string) {
    var o := FirstPattern(videoTitle, TitlePatterns);
    if o.Matched? then Finish(o.sep, o.group1, o.group2) else Fallback(videoTitle, channelTitle)
  }

  /** `_parse_track_from_title`: the patterns in order, returning on the first match. */
  method ParseTrackFromTitle(videoTitle: string, channelTitle: string) returns (artist: string, title: string)
    ensures (artist, title) == ParseTitle(videoTitle, channelTitle)
  {
    var i := 0;
    while i < |TitlePatterns|
      invariant 0 <= i <= |TitlePatterns|
      invariant FirstPattern(videoTitle, TitlePatterns[i..]) == FirstPattern(videoTitle, TitlePatterns)
    {
      var sep := TitlePatterns[i];
      assert TitlePatterns[i..][1..] == TitlePatterns[i + 1..];
      var m := TitleMatch(sep, videoTitle);
      if m.Some? {
        var (part1, part2) := m.value;
        if sep == By {
          artist, title := Strip(part2), Strip(part1);
        } else {
          artist, title := Strip(part1), Strip(part2);
        }
        artist := CleanArtistName(artist);
        title := RemoveDecorations(title, SongDecorations);
        title := Strip(title);
        return;
      }
      i := i + 1;
    }
    assert TitlePatterns[i..] == [];
    artist := CleanArtistName(channelTitle);
    title := RemoveDecorations(videoTitle, OfficialDecorations);
    title := Strip(title);
  }

  /** The first pattern that matches decides, and the channel then plays no part. */
  lemma {:induction false} FirstMatchDecides(videoTitle: string, k: nat)
    requires k < |TitlePatterns|
    requires forall j :: 0 <= j < k ==> TitleMatch(TitlePatterns[j], videoTitle).None?
    requires TitleMatch(TitlePatterns[k], videoTitle).Some?
    ensures var m := TitleMatch(TitlePatterns[k], videoTitle).value;
            FirstPattern(videoTitle, TitlePatterns) == Matched(TitlePatterns[k], m.0, m.1)
  {
    var j := 0;
    while j < k
      invariant 0 <= j <= k
      invariant FirstPattern(videoTitle, TitlePatterns[j..]) == FirstPattern(videoTitle, TitlePatterns)
    {
      assert TitlePatterns[j..][1..] == TitlePatterns[j + 1..];
      j := j + 1;
    }
    assert TitlePatterns[k..][0] == TitlePatterns[k];
  }

  /** Only when no pattern matches does the channel supply the artist. */
  lemma ParseNoMatch(videoTitle: string, channelTitle: string)
    requires forall sep :: TitleMatch(sep, videoTitle).None?
    ensures ParseTitle(videoTitle, channelTitle) == Fallback(videoTitle, channelTitle)
  {
    assert FirstPattern(videoTitle, TitlePatterns).NoMatch?;
  }

  /** Both parts of any result are trimmed; after a match the artist is trimmed too. */
  lemma ParseTitleStripped(videoTitle: string, channelTitle: string)
    ensures IsStripped(ParseTitle(videoTitle, channelTitle).1)
    ensures forall sep :: TitleMatch(sep, videoTitle).Some? ==> IsStripped(ParseTitle(videoTitle, channelTitle).0)
  {
    var o := FirstPattern(videoTitle, TitlePatterns);
    if o.Matched? {
      StrippedFinish(o.sep, o.group1, o.group2);
    }
    forall sep | TitleMatch(sep, videoTitle).Some? ensures o.Matched? {
      var j := if sep == Dash then 0 else if sep == By then 1 else if sep == Colon then 2 else 3;
      assert TitlePatterns[j] == sep;
    }
  }

  lemma StrippedFinish(sep: Separator, g1: string, g2: string)
    ensures IsStripped(Finish(sep, g1, g2).0) && IsStripped(Finish(sep, g1, g2).1)
  {
    CleanedArtistStripped(Strip(g1));
    CleanedArtistStripped(Strip(g2));
  }

  /**
   * No separator can end group 1 before position `a` when none of its starting characters
   * occurs before `a` and `t[a - 1]` is not whitespace.
   */
  lemma NoSplitBefore(sep: Separator, t: string, a: nat)
    requires 1 <= a <= |t| && !IsSpace(t[a - 1])
    requires forall q :: 0 <= q < a ==> !StartsSeparator(sep, t[q])
    ensures forall i :: 1 <= i < a ==> !MatchesAt(sep, t, i)
  {
    forall i | 1 <= i < a ensures SeparatorEnd(sep, t, i).None? {
      var w := t[i..];
      assert w[a - 1 - i] == t[a - 1];
      var q := i + LeadingSpaces(w);
      assert q <= a - 1;
      assert t[q] == w[q - i];
    }
  }

  /** After one space, group 2 is the song, up to where the trailing groups begin. */
  lemma GroupAfterSpace(song: string, rest: string, minSpace: nat)
    requires minSpace <= 1
    requires song != [] && IsStripped(song) && '(' !in song && '[' !in song
    requires TrailingGroups(rest)
    ensures Group2(" " + song + rest, minSpace) == Some(song)
  {
    var r := " " + song + rest;
    assert r[1] == song[0];
    assert LeadingSpaces(r) == 1;
    var u := r[1..];
    assert u == song + rest;
    SongEndsAtRest(song, rest);
    assert u[..|song|] == song;
  }

  /**
   * `Artist - Song` followed by optional trailing groups: group 1 is the artist and
   * group 2 the song, without the trailing groups.
   */
  lemma DashSplit(artist: string, song: string, rest: string)
    requires artist != [] && IsStripped(artist) && forall c :: c in artist ==> !IsDashChar(c)
    requires song != [] && IsStripped(song) && '(' !in song && '[' !in song
    requires TrailingGroups(rest)
    ensures TitleMatch(Dash, artist + " - " + song + rest) == Some((artist, song))
  {
    var t := artist + " - " + song + rest;
    var a := |artist|;
    forall q | 0 <= q < a ensures !StartsSeparator(Dash, t[q]) {
      assert t[q] == artist[q] && artist[q] in artist;
    }
    assert t[a - 1] == artist[a - 1];
    NoSplitBefore(Dash, t, a);
    DashSplitPoint(artist, song, rest);
    TitleMatchAt(Dash, t, a);
  }

  lemma DashSplitPoint(artist: string, song: string, rest: string)
    requires song != [] && IsStripped(song) && '(' !in song && '[' !in song
    requires TrailingGroups(rest)
    ensures var t := artist + " - " + song + rest;
            |artist| < |t| && MatchesAt(Dash, t, |artist|) && GroupsAt(Dash, t, |artist|) == (artist, song)
  {
    var t := artist + " - " + song + rest;
    var a := |artist|;
    var w := t[a..];
    assert w[0] == ' ' && w[1] == '-';
    assert LeadingSpaces(w) == 1;
    assert SeparatorEnd(Dash, t, a) == Some(a + 2);
    assert t[a + 2..] == " " + song + rest;
    GroupAfterSpace(song, rest, 0);
    assert t[..a] == artist;
  }

  /** Group 2 stops exactly where the trailing groups begin. */
  lemma SongEndsAtRest(song: string, rest: string)
    requires song != [] && IsStripped(song) && '(' !in song && '[' !in song
    requires TrailingGroups(rest)
    ensures GroupEnd(song + rest) == |song|
  {
    var u := song + rest;
    GroupEndFirst(u);
    assert u[|song|..] == rest;
    forall j | 1 <= j < |song| ensures !TrailingGroups(u[j..]) {
      SongTailNotTrailing(song, rest, j);
    }
  }

  lemma SongTailNotTrailing(song: string, rest: string, j: nat)
    requires j < |song| && IsStripped(song) && '(' !in song && '[' !in song
    ensures !TrailingGroups((song + rest)[j..])
  {
    var tail := song[j..];
    assert (song + rest)[j..] == tail + rest;
    assert tail[|tail| - 1] == song[|song| - 1];
    LStripAppend(tail, rest);
    var v := LStrip(tail);
    assert v == tail[LeadingSpaces(tail)..];
    assert v[0] == song[j + LeadingSpaces(tail)] && song[j + LeadingSpaces(tail)] in song;
    NotTrailingGroups(tail + rest);
  }

  /** `Song by Artist`, when the song part has no `b`: group 1 is the song and group 2 the artist. */
  lemma ByMatch(song: string, artist: string)
    requires song != [] && IsStripped(song) && forall c :: c in song ==> c != 'b' && c != 'B'
    requires artist != [] && IsStripped(artist) && '(' !in artist && '[' !in artist
    ensures TitleMatch(By, song + " by " + artist) == Some((song, artist))
  {
    var t := song + " by " + artist;
    var s := |song|;
    forall q | 0 <= q < s ensures !StartsSeparator(By, t[q]) {
      assert t[q] == song[q] && song[q] in song;
    }
    assert t[s - 1] == song[s - 1];
    NoSplitBefore(By, t, s);
    BySplitPoint(song, artist);
    TitleMatchAt(By, t, s);
  }

  lemma BySplitPoint(song: string, artist: string)
    requires artist != [] && IsStripped(artist) && '(' !in artist && '[' !in artist
    ensures var t := song + " by " + artist;
            |song| < |t| && MatchesAt(By, t, |song|) && GroupsAt(By, t, |song|) == (song, artist)
  {
    var t := song + " by " + artist;
    var s := |song|;
    var w := t[s..];
    assert w[0] == ' ' && w[1] == 'b';
    assert LeadingSpaces(w) == 1;
    assert t[s + 1] == 'b' && t[s + 2] == 'y';
    assert SeparatorEnd(By, t, s) == Some(s + 3);
    assert t[s + 3..] == " " + artist + "";
    GroupAfterSpace(artist, "", 1);
    assert t[..s] == song;
  }

  /** A "by" title made of dash-free parts has no dash split. */
  lemma ByTitleNoDash(song: string, artist: string)
    requires forall c :: c in song ==> !IsDashChar(c)
    requires forall c :: c in artist ==> !IsDashChar(c)
    ensures TitleMatch(Dash, song + " by " + artist).None?
  {
    var t := song + " by " + artist;
    forall c | c in t ensures !StartsSeparator(Dash, c) {
      var k :| 0 <= k < |t| && t[k] == c;
      if k < |song| {
        assert song[k] in song;
      } else if k >= |song| + 4 {
        assert artist[k - |song| - 4] in artist;
      }
    }
    NoSeparatorNoMatch(Dash, t);
  }

  /** Trimmed groups without clean-up to do pass through; only the artist is cleaned. */
  lemma FinishPlain(sep: Separator, g1: string, g2: string)
    requires sep != By
    requires IsStripped(g1) && IsStripped(g2) && '(' !in g2 && '[' !in g2
    ensures Finish(sep, g1, g2) == (CleanedArtist(g1), g2)
  {
    StripOfStripped(g1);
    StripOfStripped(g2);
    RemoveDecorationsAbsent(g2, SongDecorations);
  }

  /** The same for the "by" pattern, whose groups come back in the other order. */
  lemma FinishPlainBy(g1: string, g2: string)
    requires IsStripped(g1) && IsStripped(g2) && '(' !in g1 && '[' !in g1
    ensures Finish(By, g1, g2) == (CleanedArtist(g2), g1)
  {
    StripOfStripped(g1);
    StripOfStripped(g2);
    RemoveDecorationsAbsent(g1, SongDecorations);
  }

  /**
   * A dash title followed by optional trailing groups parses to the cleaned artist and the
   * song without the groups, whatever the channel.
   */
  lemma ParseDashSplit(artist: string, song: string, rest: string, channel: string)
    requires artist != [] && IsStripped(artist) && forall c :: c in artist ==> !IsDashChar(c)
    requires song != [] && IsStripped(song) && '(' !in song && '[' !in song
    requires TrailingGroups(rest)
    ensures ParseTitle(artist + " - " + song + rest, channel) == (CleanedArtist(artist), song)
  {
    DashSplit(artist, song, rest);
    FirstMatchDecides(artist + " - " + song + rest, 0);
    FinishPlain(Dash, artist, song);
  }

  /**
   * `Song by Artist` with no dash anywhere and no `b` in the song parses with the parts
   * swapped: the artist is the text after "by".
   */
  lemma ParseBySplit(song: string, artist: string, channel: string)
    requires song != [] && IsStripped(song) && forall c :: c in song ==> !IsDashChar(c) && c != 'b' && c != 'B'
    requires '(' !in song && '[' !in song
    requires artist != [] && IsStripped(artist) && forall c :: c in artist ==> !IsDashChar(c)
    requires '(' !in artist && '[' !in artist
    ensures ParseTitle(song + " by " + artist, channel) == (CleanedArtist(artist), song)
  {
    BySplitFirst(song, artist);
    FinishPlainBy(song, artist);
  }

  lemma BySplitFirst(song: string, artist: string)
    requires song != [] && IsStripped(song) && forall c :: c in song ==> !IsDashChar(c) && c != 'b' && c != 'B'
    requires artist != [] && IsStripped(artist) && forall c :: c in artist ==> !IsDashChar(c)
    requires '(' !in artist && '[' !in artist
    ensures FirstPattern(song + " by " + artist, TitlePatterns) == Matched(By, song, artist)
  {
    ByMatch(song, artist);
    ByTitleNoDash(song, artist);
    SecondPatternDecides(song + " by " + artist, song, artist);
  }

  /** When the dash pattern fails and the "by" pattern matches, the "by" groups decide. */
  lemma SecondPatternDecides(t: string, g1: string, g2: string)
    requires TitleMatch(Dash, t).None? && TitleMatch(By, t) == Some((g1, g2))
    ensures FirstPattern(t, TitlePatterns) == Matched(By, g1, g2)
  {
    var ps := TitlePatterns;
    assert ps[0] == Dash;
    assert FirstPattern(t, ps) == FirstPattern(t, ps[1..]);
    assert ps[1..][0] == By;
  }

  /** The example from the adapter's documentation: a dash split with an `(Official Video)` group. */
  lemma ParseDashExample(artist: string, song: string, rest: string, channel: string)
    requires artist == "Artist" && song == "Song" && rest == " (Official Video)"
    ensures ParseTitle(artist + " - " + song + rest, channel) == (artist, song)
  {
    assert LeadingSpaces(rest) == 1;
    assert ParenTail(rest) by {
      var v := LStrip(rest);
      assert v[|v| - 1] == ')';
    }
    ParseDashSplit(artist, song, rest, channel);
    CleanedArtistNoDash(artist);
  }

  /** A "by" title: `Yesterday by The Beatles` gives artist `The Beatles` and song `Yesterday`. */
  lemma ParseByExample(song: string, artist: string, channel: string)
    requires song == "Yesterday" && artist == "The Beatles"
    ensures ParseTitle(song + " by " + artist, channel) == (artist, song)
  {
    ByExampleParts(song, artist);
    ParseBySplit(song, artist, channel);
    CleanedArtistNoDash(artist);
  }

  lemma ByExampleParts(song: string, artist: string)
    requires song == "Yesterday" && artist == "The Beatles"
    ensures song != [] && IsStripped(song) && forall c :: c in song ==> !IsDashChar(c) && c != 'b' && c != 'B'
    ensures '(' !in song && '[' !in song
    ensures artist != [] && IsStripped(artist) && forall c :: c in artist ==> !IsDashChar(c)
    ensures '(' !in artist && '[' !in artist && '-' !in artist
  {
  }

  /** Without any clean-up to do, the fallback keeps a trimmed title and a dash-free channel as they are. */
  lemma FallbackKeepsPlainTitle(t: string, channel: string)
    requires IsStripped(t) && '(' !in t && '[' !in t
    requires '-' !in channel
    ensures Fallback(t, channel) == (channel, t)
  {
    RemoveDecorationsAbsent(t, OfficialDecorations);
    StripOfStripped(t);
    CleanedArtistNoDash(channel);
  }

  /** No pattern matches `Live Set`, so the channel becomes the artist. */
  lemma ParseFallbackExample(t: string, channel: string)
    requires t == "Live Set" && channel == "Some Channel"
    ensures ParseTitle(t, channel) == (channel, t)
  {
    FallbackExampleNoMatch(t, channel);
    FallbackExamplePlain(t, channel);
  }

  lemma FallbackExamplePlain(t: string, channel: string)
    requires t == "Live Set" && channel == "Some Channel"
    ensures Fallback(t, channel) == (channel, t)
  {
    FallbackKeepsPlainTitle(t, channel);
  }

  lemma FallbackExampleNoMatch(t: string, channel: string)
    requires t == "Live Set"
    ensures ParseTitle(t, channel) == Fallback(t, channel)
  {
    forall sep ensures TitleMatch(sep, t).None? {
      assert forall c :: c in t ==> !StartsSeparator(sep, c);
      NoSeparatorNoMatch(sep, t);
    }
    ParseNoMatch(t, channel);
  }
}
