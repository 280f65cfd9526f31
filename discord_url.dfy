/**
 * `parseDiscordUrl`: extraction of the guild, channel and message ids from a
 * Discord message permalink such as
 * `https://discord.com/channels/{guildId}/{channelId}/{messageId}`.
 *
 * The source applies the regular expression `channels\/(\d+)\/(\d+)\/(\d+)`
 * (no flags, so `\d` is an ASCII digit) and takes the first match. Here the
 * match is an explicit scan: try every start position from the left, and at a
 * position read `channels/`, then a maximal run of digits, `/`, a maximal run,
 * `/`, a maximal run. Because `/` is not a digit, the first two runs cannot be
 * split any other way, and the last run is greedy, so the scan finds exactly
 * the groups the regular expression captures.
 */
module DiscordUrl {
  import opened Truthiness

  datatype DiscordIds = DiscordIds(guildId: string, channelId: string, messageId: string)

  /** A match of the pattern: where it starts and what its groups captured. */
  datatype Match = Match(pos: nat, ids: DiscordIds)

  const ChannelsPrefix: string := "channels/"

  predicate IsDigit(c: char) {
    '0' <= c <= '9'
  }

  /** What `\d+` accepts: a non-empty string of digits. */
  ghost predicate DigitRun(t: string) {
    |t| > 0 && forall k :: 0 <= k < |t| ==> IsDigit(t[k])
  }

  /** Offset just past the pattern `channels/G/C/M` for the given groups. */
  function PatternEnd(i: nat, ids: DiscordIds): nat {
    i + |ChannelsPrefix| + |ids.guildId| + 1 + |ids.channelId| + 1 + |ids.messageId|
  }

  /**
   * The text from offset `i` on starts with `channels/G/C/M`, where G, C and M
   * are the digit runs of `ids`: the regular expression can match at `i`
   * with these groups.
   */
  ghost predicate MatchAt(s: string, i: nat, ids: DiscordIds) {
    var a := i + |ChannelsPrefix|;
    var b := a + |ids.guildId|;
    var c := b + 1 + |ids.channelId|;
    var e := c + 1 + |ids.messageId|;
    && DigitRun(ids.guildId) && DigitRun(ids.channelId) && DigitRun(ids.messageId)
    && e <= |s|
    && s[i..a] == ChannelsPrefix
    && s[a..b] == ids.guildId && s[b] == '/'
    && s[b + 1..c] == ids.channelId && s[c] == '/'
    && s[c + 1..e] == ids.messageId
  }

  /** A match at `i` whose last group is greedy: it is not followed by a digit. */
  ghost predicate GreedyAt(s: string, i: nat, ids: DiscordIds) {
    MatchAt(s, i, ids) && (PatternEnd(i, ids) == |s| || !IsDigit(s[PatternEnd(i, ids)]))
  }

  /** The regular expression matches at no offset in `[from, to)`. */
  ghost predicate NoMatchBetween(s: string, from: nat, to: nat) {
    forall j: nat, ids :: from <= j < to ==> !MatchAt(s, j, ids)
  }

  /** The regular expression matches nowhere before offset `n`. */
  ghost predicate NoMatchBefore(s: string, n: nat) {
    NoMatchBetween(s, 0, n)
  }

  /** The regular expression matches at no offset from `from` on. */
  ghost predicate NoMatchFrom(s: string, from: nat) {
    forall j: nat, ids :: from <= j ==> !MatchAt(s, j, ids)
  }

  /** End of the maximal run of digits that starts at offset `k`. */
  function DigitRunEnd(s: string, k: nat): (e: nat)
    requires k <= |s|
    ensures k <= e <= |s|
    decreases |s| - k
  {
    if k < |s| && IsDigit(s[k]) then DigitRunEnd(s, k + 1) else k
  }

  /**
   * The run is greedy `\d+`: everything before its end is a digit, and it
   * stops at the end of the text or at a non-digit.
   */
  lemma {:induction false} DigitRunEndSpec(s: string, k: nat)
    requires k <= |s|
    ensures forall j :: k <= j < DigitRunEnd(s, k) ==> IsDigit(s[j])
    ensures DigitRunEnd(s, k) == |s| || !IsDigit(s[DigitRunEnd(s, k)])
    decreases |s| - k
  {
    if k < |s| && IsDigit(s[k]) {
      DigitRunEndSpec(s, k + 1);
    }
  }

  /** A run of digits from `k` to `b` lies within the maximal run from `k`. */
  lemma {:induction false} DigitRunEndAtLeast(s: string, k: nat, b: nat)
    requires k <= b <= |s|
    requires forall j :: k <= j < b ==> IsDigit(s[j])
    ensures b <= DigitRunEnd(s, k)
    decreases b - k
  {
    if k < b {
      DigitRunEndAtLeast(s, k + 1, b);
    }
  }

  /** A digit run that stops at a non-digit (or at the end) is the maximal run. */
  lemma {:induction false} DigitRunEndIs(s: string, k: nat, b: nat)
    requires k <= b <= |s|
    requires forall j :: k <= j < b ==> IsDigit(s[j])
    requires b == |s| || !IsDigit(s[b])
    ensures DigitRunEnd(s, k) == b
    decreases b - k
  {
    if k < b {
      DigitRunEndIs(s, k + 1, b);
    }
  }

  /** A slice is a digit run exactly when it is non-empty and every character in its range is a digit. */
  lemma SliceDigits(s: string, a: nat, b: nat)
    requires a <= b <= |s|
    ensures DigitRun(s[a..b]) <==> a < b && forall j :: a <= j < b ==> IsDigit(s[j])
  {
    forall j | a <= j < b ensures s[j] == s[a..b][j - a] {
    }
  }

  /**
   * The match attempt of `p(\d+)\/(\d+)\/(\d+)` at one start offset: the
   * literal `p`, then three maximal digit runs separated by `/`.
   */
  function TryMatchWith(s: string, p: string, i: nat): Option<DiscordIds>
    requires i <= |s|
  {
    var a := i + |p|;
    if a <= |s| && s[i..a] == p then
      var b := DigitRunEnd(s, a);
      if a < b < |s| && s[b] == '/' then
        var c := DigitRunEnd(s, b + 1);
        if b + 1 < c < |s| && s[c] == '/' then
          var e := DigitRunEnd(s, c + 1);
          if c + 1 < e then Some(DiscordIds(s[a..b], s[b + 1..c], s[c + 1..e]))
          else None
        else None
      else None
    else None
  }

  /** The match attempt of the regular expression at one start offset. */
  function TryMatchAt(s: string, i: nat): Option<DiscordIds>
    requires i <= |s|
  {
    TryMatchWith(s, ChannelsPrefix, i)
  }

  /** What the attempt at `i` finds is a greedy match at `i`. */
  lemma TryMatchAtSound(s: string, i: nat)
    requires i <= |s|
    ensures TryMatchAt(s, i).Some? ==> GreedyAt(s, i, TryMatchAt(s, i).value)
  {
    var a := i + |ChannelsPrefix|;
    if TryMatchAt(s, i).Some? {
      var b := DigitRunEnd(s, a);
      var c := DigitRunEnd(s, b + 1);
      var e := DigitRunEnd(s, c + 1);
      var ids := DiscordIds(s[a..b], s[b + 1..c], s[c + 1..e]);
      assert TryMatchAt(s, i) == Some(ids);
      DigitRunEndSpec(s, a);
      DigitRunEndSpec(s, b + 1);
      DigitRunEndSpec(s, c + 1);
      SliceDigits(s, a, b);
      SliceDigits(s, b + 1, c);
      SliceDigits(s, c + 1, e);
      MatchAtIntro(s, i, ids, a, b, c, e);
      assert PatternEnd(i, ids) == e;
    }
  }

  /** The pattern matches at `i` with the groups cut out at the given offsets. */
  lemma MatchAtIntro(s: string, i: nat, ids: DiscordIds, a: nat, b: nat, c: nat, e: nat)
    requires a == i + |ChannelsPrefix| && a < b && b + 1 < c && c + 1 < e <= |s|
    requires s[i..a] == ChannelsPrefix && s[b] == '/' && s[c] == '/'
    requires ids == DiscordIds(s[a..b], s[b + 1..c], s[c + 1..e])
    requires DigitRun(ids.guildId) && DigitRun(ids.channelId) && DigitRun(ids.messageId)
    ensures MatchAt(s, i, ids)
  {
  }

  /** The attempt at `i` succeeds once its three digit runs end where they should. */
  lemma TryMatchWithSucceeds(s: string, p: string, i: nat, a: nat, b: nat, c: nat, e: nat)
    requires a == i + |p| && a <= |s| && s[i..a] == p
    requires DigitRunEnd(s, a) == b && a < b < |s| && s[b] == '/'
    requires DigitRunEnd(s, b + 1) == c && b + 1 < c < |s| && s[c] == '/'
    requires DigitRunEnd(s, c + 1) == e && c + 1 < e
    ensures TryMatchWith(s, p, i) == Some(DiscordIds(s[a..b], s[b + 1..c], s[c + 1..e]))
  {
  }

  /**
   * Digits on `[a, b)` and `[b + 1, c)`, each followed by `/`, and digits on
   * `[c + 1, e)`: the first two maximal runs end at `b` and `c`, the third
   * reaches at least `e`.
   */
  lemma RunsAt(s: string, a: nat, b: nat, c: nat, e: nat)
    requires a < b && b + 1 < c && c + 1 < e <= |s| && s[b] == '/' && s[c] == '/'
    requires forall j :: a <= j < b ==> IsDigit(s[j])
    requires forall j :: b + 1 <= j < c ==> IsDigit(s[j])
    requires forall j :: c + 1 <= j < e ==> IsDigit(s[j])
    ensures DigitRunEnd(s, a) == b && DigitRunEnd(s, b + 1) == c && e <= DigitRunEnd(s, c + 1)
  {
    DigitRunEndIs(s, a, b);
    DigitRunEndIs(s, b + 1, c);
    DigitRunEndAtLeast(s, c + 1, e);
  }

  /**
   * A match at `i` forces the scan at `i` to succeed with the same first two
   * groups and a last group that extends the given one.
   */
  lemma TryMatchAtComplete(s: string, i: nat, ids: DiscordIds)
    requires MatchAt(s, i, ids)
    ensures TryMatchAt(s, i).Some?
    ensures TryMatchAt(s, i).value.guildId == ids.guildId
    ensures TryMatchAt(s, i).value.channelId == ids.channelId
    ensures ids.messageId <= TryMatchAt(s, i).value.messageId
  {
    var a := i + |ChannelsPrefix|;
    var b := a + |ids.guildId|;
    var c := b + 1 + |ids.channelId|;
    var e := c + 1 + |ids.messageId|;
    MatchAtElim(s, i, ids, a, b, c, e);
    RunsAt(s, a, b, c, e);
    var e' := DigitRunEnd(s, c + 1);
    TryMatchWithSucceeds(s, ChannelsPrefix, i, a, b, c, e');
    SlicePrefix(s, c + 1, e, e');
  }

  /** A greedy match at `i` is exactly what the scan at `i` finds. */
  lemma TryMatchAtGreedy(s: string, i: nat, ids: DiscordIds)
    requires GreedyAt(s, i, ids)
    ensures TryMatchAt(s, i) == Some(ids)
  {
    var a := i + |ChannelsPrefix|;
    var b := a + |ids.guildId|;
    var c := b + 1 + |ids.channelId|;
    var e := c + 1 + |ids.messageId|;
    MatchAtElim(s, i, ids, a, b, c, e);
    assert PatternEnd(i, ids) == e;
    RunsAt(s, a, b, c, e);
    DigitRunEndIs(s, c + 1, e);
    TryMatchWithSucceeds(s, ChannelsPrefix, i, a, b, c, e);
  }

  /** A shorter slice from the same offset is a prefix of a longer one. */
  lemma SlicePrefix(s: string, x: nat, y: nat, z: nat)
    requires x <= y <= z <= |s|
    ensures s[x..y] <= s[x..z]
  {
    assert s[x..z][..y - x] == s[x..y];
  }

  /** A match at `i` laid out at its offsets: the prefix, the three groups and the two slashes. */
  lemma MatchAtElim(s: string, i: nat, ids: DiscordIds, a: nat, b: nat, c: nat, e: nat)
    requires MatchAt(s, i, ids)
    requires a == i + |ChannelsPrefix| && b == a + |ids.guildId|
    requires c == b + 1 + |ids.channelId| && e == c + 1 + |ids.messageId|
    ensures a < b && b + 1 < c && c + 1 < e <= |s|
    ensures s[i..a] == ChannelsPrefix && s[b] == '/' && s[c] == '/'
    ensures s[a..b] == ids.guildId && s[b + 1..c] == ids.channelId && s[c + 1..e] == ids.messageId
    ensures forall j :: a <= j < b ==> IsDigit(s[j])
    ensures forall j :: b + 1 <= j < c ==> IsDigit(s[j])
    ensures forall j :: c + 1 <= j < e ==> IsDigit(s[j])
  {
    SliceDigits(s, a, b);
    SliceDigits(s, b + 1, c);
    SliceDigits(s, c + 1, e);
  }

  /** Two greedy matches at the same offset capture the same groups. */
  lemma GreedyUnique(s: string, i: nat, x: DiscordIds, y: DiscordIds)
    requires GreedyAt(s, i, x) && GreedyAt(s, i, y)
    ensures x == y
  {
    TryMatchAtGreedy(s, i, x);
    TryMatchAtGreedy(s, i, y);
  }

  /** Scan for the leftmost match at or after offset `from`. */
  function FindMatch(s: string, from: nat): Option<Match>
    requires from <= |s|
    decreases |s| - from
  {
    match TryMatchAt(s, from)
    case Some(ids) => Some(Match(from, ids))
    case None => if from == |s| then None else FindMatch(s, from + 1)
  }

  /** A failed attempt at `i` means the pattern does not match at `i`. */
  lemma NoMatchWhereTryFails(s: string, i: nat)
    requires i <= |s| && TryMatchAt(s, i).None?
    ensures forall ids :: !MatchAt(s, i, ids)
  {
    forall ids | MatchAt(s, i, ids) ensures false {
      TryMatchAtComplete(s, i, ids);
    }
  }

  /**
   * The scan returns the first offset at or after `from` where the regular
   * expression matches, with the groups it captures there, and `None` exactly
   * when it matches nowhere from `from` on.
   */
  lemma {:induction false} FindMatchSpec(s: string, from: nat)
    requires from <= |s|
    ensures FindMatch(s, from).Some? ==>
              from <= FindMatch(s, from).value.pos &&
              GreedyAt(s, FindMatch(s, from).value.pos, FindMatch(s, from).value.ids)
    ensures FindMatch(s, from).Some? ==> NoMatchBetween(s, from, FindMatch(s, from).value.pos)
    ensures FindMatch(s, from).None? ==> NoMatchFrom(s, from)
    decreases |s| - from
  {
    TryMatchAtSound(s, from);
    if TryMatchAt(s, from).None? {
      NoMatchWhereTryFails(s, from);
      if from < |s| {
        FindMatchSpec(s, from + 1);
      }
    }
  }

  /**
   * `parseDiscordUrl`: all three ids, or nothing. An absent or empty URL
   * gives nothing; otherwise the groups of the leftmost match.
   */
  function ParseDiscordUrl(url: Option<string>): (r: Option<DiscordIds>)
    ensures !Truthy(url) ==> r == None
    ensures r.Some? ==> DigitRun(r.value.guildId) && DigitRun(r.value.channelId) && DigitRun(r.value.messageId)
  {
    if !Truthy(url) then None
    else
      FindMatchSpec(url.value, 0);
      match FindMatch(url.value, 0)
      case Some(m) => Some(m.ids)
      case None => None
  }

  /** A greedy match with no match before it is what the parse returns. */
  lemma ParseFindsLeftmost(s: string, i: nat, ids: DiscordIds)
    requires s != ""
    requires GreedyAt(s, i, ids) && NoMatchBefore(s, i)
    ensures ParseDiscordUrl(Some(s)) == Some(ids)
  {
    FindMatchSpec(s, 0);
    var found := FindMatch(s, 0);
    assert MatchAt(s, i, ids);
    assert found.Some?;
    var m := found.value;
    assert m.pos <= i;
    assert MatchAt(s, m.pos, m.ids);
    assert i <= m.pos;
    GreedyUnique(s, i, ids, m.ids);
  }

  /**
   * The parse finds the groups of the leftmost greedy match, and finds
   * nothing exactly when the pattern occurs nowhere in the URL.
   */
  lemma ParseIsLeftmostMatch(s: string, ids: DiscordIds)
    requires s != ""
    ensures ParseDiscordUrl(Some(s)) == Some(ids) <==>
            exists i: nat :: GreedyAt(s, i, ids) && NoMatchBefore(s, i)
    ensures ParseDiscordUrl(Some(s)) == None <==> forall i: nat, x :: !MatchAt(s, i, x)
  {
    FindMatchSpec(s, 0);
    var found := FindMatch(s, 0);
    if found.Some? {
      var m := found.value;
      assert GreedyAt(s, m.pos, m.ids) && NoMatchBefore(s, m.pos);
      assert MatchAt(s, m.pos, m.ids);
    }
    if exists i: nat :: GreedyAt(s, i, ids) && NoMatchBefore(s, i) {
      var i: nat :| GreedyAt(s, i, ids) && NoMatchBefore(s, i);
      ParseFindsLeftmost(s, i, ids);
    }
  }

  /**
   * A URL that contains `channels/G/C/M`, with no earlier match and M not
   * followed by a digit, yields exactly G, C and M.
   */
  lemma ParseFirstOccurrence(prefix: string, ids: DiscordIds, suffix: string)
    requires DigitRun(ids.guildId) && DigitRun(ids.channelId) && DigitRun(ids.messageId)
    requires suffix == [] || !IsDigit(suffix[0])
    requires NoMatchBefore(prefix + ChannelsPrefix + ids.guildId + "/" + ids.channelId + "/" + ids.messageId + suffix, |prefix|)
    ensures ParseDiscordUrl(Some(prefix + ChannelsPrefix + ids.guildId + "/" + ids.channelId + "/" + ids.messageId + suffix)) == Some(ids)
  {
    var s := prefix + ChannelsPrefix + ids.guildId + "/" + ids.channelId + "/" + ids.messageId + suffix;
    var i := |prefix|;
    var a := i + |ChannelsPrefix|;
    var b := a + |ids.guildId|;
    var c := b + 1 + |ids.channelId|;
    var e := c + 1 + |ids.messageId|;
    assert s[i..a] == ChannelsPrefix;
    assert s[a..b] == ids.guildId;
    assert s[b] == '/';
    assert s[b + 1..c] == ids.channelId;
    assert s[c] == '/';
    assert s[c + 1..e] == ids.messageId;
    assert e < |s| ==> s[e] == suffix[0];
    assert GreedyAt(s, i, ids);
    ParseIsLeftmostMatch(s, ids);
  }

  /**
   * A match needs `h` right after its start, so a text with no `h` at offsets
   * `1` to `n` has no match before `n`.
   */
  lemma NoMatchWithoutH(s: string, n: nat)
    requires n < |s|
    requires forall k :: 0 < k <= n ==> s[k] != 'h'
    ensures NoMatchBefore(s, n)
  {
    forall j: nat, x | j < n ensures !MatchAt(s, j, x) {
      if j + |ChannelsPrefix| <= |s| {
        var window := s[j..j + |ChannelsPrefix|];
        assert window[1] == s[j + 1];
        assert window != ChannelsPrefix;
      }
    }
  }

  /** The permalink form the plugin receives. */
  lemma ParsePermalinkExample()
    ensures ParseDiscordUrl(Some("https://discord.com/channels/111/222/333"))
            == Some(DiscordIds("111", "222", "333"))
  {
    var prefix := "https://discord.com/";
    var ids := DiscordIds("111", "222", "333");
    var s := prefix + ChannelsPrefix + ids.guildId + "/" + ids.channelId + "/" + ids.messageId + "";
    assert s == "https://discord.com/channels/111/222/333";
    assert forall k :: 0 < k < |prefix| ==> prefix[k] != 'h';
    assert forall k :: 0 < k <= |prefix| ==> s[k] == (prefix + "c")[k];
    NoMatchWithoutH(s, |prefix|);
    ParseFirstOccurrence(prefix, ids, "");
  }
}
