/**
 * The leaderboard table component: the entry shape it renders, the rank icon and
 * badge, the score colour, the avatar initials and the current-user highlight.
 */
module LeaderboardTable {
  import opened JsCore
  import opened UserStats

  datatype Profile = Profile(fullName: string, email: string)

  datatype LeaderboardEntry = LeaderboardEntry(
    id: string, rank: int, score: int, userId: string, createdAt: string, profile: Profile)

  // ---------------------------------------------------------------------------
  // Rank icon, rank badge and score colour.

  datatype RankIcon = Crown | Trophy | Medal | Award

  /** `getRankIcon`: a `switch` on the rank with a default. */
  function RankIconOf(rank: int): (icon: RankIcon)
    ensures icon == Crown <==> rank == 1
    ensures icon == Trophy <==> rank == 2
    ensures icon == Medal <==> rank == 3
    ensures icon == Award <==> (rank < 1 || rank > 3)
  {
    if rank == 1 then Crown
    else if rank == 2 then Trophy
    else if rank == 3 then Medal
    else Award
  }

  /** The class a rank badge gets; `Undefined` is the missing key of the three-entry colour table. */
  datatype RankBadge = Gold | Silver | Bronze | Blue | Undefined

  /** `getRankBadge`: ranks up to 3 index the table `{1, 2, 3}`; higher ranks are blue. */
  function RankBadgeOf(rank: int): (badge: RankBadge)
    ensures 1 <= rank <= 3 ==> badge == [Gold, Silver, Bronze][rank - 1]
    ensures badge == Blue <==> rank > 3
    ensures badge == Undefined <==> rank <= 0
  {
    if rank <= 3 then
      if rank == 1 then Gold
      else if rank == 2 then Silver
      else if rank == 3 then Bronze
      else Undefined
    else
      Blue
  }

  /** Every rank a ranked list hands out (1 and up) gets a real badge and an icon. */
  lemma RankedEntriesHaveBadges(rank: int)
    requires rank >= 1
    ensures RankBadgeOf(rank) != Undefined
    ensures RankIconOf(rank) == Award <==> RankBadgeOf(rank) == Blue
  {
  }

  datatype ScoreColor = BoldGreen | Green | Yellow | Orange | Red

  /** `getScoreColor` of the table: 90+, [80, 90), [70, 80), [60, 70), below 60. */
  function ScoreTextColor(score: int): (color: ScoreColor)
    ensures color == BoldGreen <==> score >= 90
    ensures color == Green <==> 80 <= score < 90
    ensures color == Yellow <==> 70 <= score < 80
    ensures color == Orange <==> 60 <= score < 70
    ensures color == Red <==> score < 60
  {
    if score >= 90 then BoldGreen
    else if score >= 80 then Green
    else if score >= 70 then Yellow
    else if score >= 60 then Orange
    else Red
  }

  /** The table's score colours and the statistics panel's performance levels use the same cut points. */
  lemma ScoreColorMatchesLevel(score: int)
    ensures ScoreTextColor(score) == BoldGreen <==> PerformanceLevel(score) == Expert
    ensures ScoreTextColor(score) == Green <==> PerformanceLevel(score) == Advanced
    ensures ScoreTextColor(score) == Yellow <==> PerformanceLevel(score) == Intermediate
    ensures ScoreTextColor(score) == Orange <==> PerformanceLevel(score) == Beginner
    ensures ScoreTextColor(score) == Red <==> PerformanceLevel(score) == Novice
  {
  }

  // ---------------------------------------------------------------------------
  // String helpers behind `getInitials`.

  /** The characters `String.prototype.trim` removes: ECMAScript white space and line terminators. */
  predicate IsWhitespace(c: char)
  {
    c == '\t' || c == '\n' || c == '\U{000B}' || c == '\U{000C}' || c == '\r' || c == ' ' ||
    c == '\U{00A0}' || c == '\U{1680}' || ('\U{2000}' <= c <= '\U{200A}') ||
    c == '\U{2028}' || c == '\U{2029}' || c == '\U{202F}' || c == '\U{205F}' ||
    c == '\U{3000}' || c == '\U{FEFF}'
  }

  function TrimStart(s: string): (t: string)
    ensures t == [] || !IsWhitespace(t[0])
    ensures t == [] <==> forall i :: 0 <= i < |s| ==> IsWhitespace(s[i])
  {
    if s != [] && IsWhitespace(s[0]) then TrimStart(s[1..]) else s
  }

  function TrimEnd(s: string): (t: string)
    ensures t == [] || (s != [] && t[0] == s[0])
  {
    if s != [] && IsWhitespace(s[|s| - 1]) then TrimEnd(s[..|s| - 1]) else s
  }

  /** `s.trim()`. */
  function Trim(s: string): string
  {
    TrimEnd(TrimStart(s))
  }

  /** `s.trim()` is empty exactly when every character of `s` is white space. */
  lemma TrimEmptyIff(s: string)
    ensures Trim(s) == [] <==> forall i :: 0 <= i < |s| ==> IsWhitespace(s[i])
  {
    var t := TrimStart(s);
    if t != [] {
      assert !IsWhitespace(t[0]);
      TrimEndKeepsFirst(t);
    }
  }

  lemma {:induction false} TrimEndKeepsFirst(s: string)
    requires s != [] && !IsWhitespace(s[0])
    ensures TrimEnd(s) != []
  {
    if IsWhitespace(s[|s| - 1]) {
      TrimEndKeepsFirst(s[..|s| - 1]);
    }
  }

  /** `s.split(" ")`: the pieces between single spaces, empty pieces included. */
  function Split(s: string): (words: seq<string>)
    ensures |words| >= 1
    ensures forall i :: 0 <= i < |words| ==> ' ' !in words[i]
  {
    if s == [] then [""]
    else if s[0] == ' ' then [""] + Split(s[1..])
    else
      var rest := Split(s[1..]);
      [[s[0]] + rest[0]] + rest[1..]
  }

  /** `words.join(" ")`. */
  function Join(words: seq<string>): string
    requires |words| >= 1
  {
    if |words| == 1 then words[0] else words[0] + " " + Join(words[1..])
  }

  /** Joining the pieces of a split with the separator gives back the string. */
  lemma {:induction false} JoinSplit(s: string)
    ensures Join(Split(s)) == s
  {
    if s != [] {
      JoinSplit(s[1..]);
      var rest := Split(s[1..]);
      if s[0] == ' ' {
        assert Split(s)[1..] == rest;
      } else if |rest| == 1 {
        assert Join(Split(s)) == [s[0]] + rest[0];
      } else {
        assert Split(s)[1..] == rest[1..];
        assert Join(Split(s)) == ([s[0]] + rest[0]) + " " + Join(rest[1..]);
        assert s == [s[0]] + s[1..];
      }
    }
  }

  /** `.map(n => n[0]).join("")`: the first character of every word; an empty word gives `undefined`, joined as nothing. */
  function Heads(words: seq<string>): string
  {
    if words == [] then ""
    else (if words[0] == [] then "" else [words[0][0]]) + Heads(words[1..])
  }

  /** An independent description: every non-space character that starts the string or follows a space. */
  function Starts(s: string, atStart: bool): string
  {
    if s == [] then ""
    else (if atStart && s[0] != ' ' then [s[0]] else "") + Starts(s[1..], s[0] == ' ')
  }

  lemma {:induction false} HeadsCons(w: string, words: seq<string>)
    ensures Heads([w] + words) == (if w == [] then "" else [w[0]]) + Heads(words)
  {
    assert ([w] + words)[1..] == words;
  }

  /** The first characters of the words of `s` are exactly the characters that start a word of `s`. */
  lemma {:induction false} HeadsOfSplit(s: string)
    ensures Heads(Split(s)) == Starts(s, true)
    decreases |s|, 1
  {
    if s == [] {
      assert Heads([""]) == Heads([""][1..]);
    } else if s[0] == ' ' {
      HeadsCons("", Split(s[1..]));
      HeadsOfSplit(s[1..]);
    } else {
      var rest := Split(s[1..]);
      HeadsCons([s[0]] + rest[0], rest[1..]);
      HeadsOfLaterWords(s[1..]);
    }
  }

  /** The words after the first one start exactly at the characters that follow a space. */
  lemma {:induction false} HeadsOfLaterWords(t: string)
    ensures Heads(Split(t)[1..]) == Starts(t, false)
    decreases |t|, 0
  {
    if t == [] {
    } else if t[0] == ' ' {
      assert Split(t)[1..] == Split(t[1..]);
      HeadsOfSplit(t[1..]);
    } else {
      assert Split(t)[1..] == Split(t[1..])[1..];
      HeadsOfLaterWords(t[1..]);
    }
  }

  /** `toUpperCase` on one character, for the ASCII letters. */
  function UpperChar(c: char): (u: char)
    ensures 'a' <= c <= 'z' ==> u as int == c as int - 32
    ensures !('a' <= c <= 'z') ==> u == c
    ensures !('a' <= u <= 'z')
  {
    if 'a' <= c <= 'z' then (c as int - 32) as char else c
  }

  function Upper(s: string): (u: string)
    ensures |u| == |s|
    ensures forall i :: 0 <= i < |s| ==> u[i] == UpperChar(s[i])
  {
    if s == [] then "" else [UpperChar(s[0])] + Upper(s[1..])
  }

  /** `s.slice(0, n)`. */
  function Take(s: string, n: nat): (t: string)
    ensures |t| <= n && |t| <= |s|
    ensures t == s[..|t|]
    ensures |s| >= n ==> |t| == n
  {
    if |s| <= n then s else s[..n]
  }

  /**
   * `getInitials`: with a name that has a non-blank character, the first letters of its
   * space-separated words, upper-cased, at most two; otherwise the first two characters of the email.
   */
  function Initials(name: string, email: string): (initials: string)
    ensures |initials| <= 2
    ensures forall i :: 0 <= i < |initials| ==> !('a' <= initials[i] <= 'z')
    ensures (exists i :: 0 <= i < |name| && !IsWhitespace(name[i])) ==>
      initials == Take(Upper(Starts(name, true)), 2)
    ensures (forall i :: 0 <= i < |name| ==> IsWhitespace(name[i])) ==>
      initials == Upper(Take(email, 2))
  {
    TrimEmptyIff(name);
    HeadsOfSplit(name);
    if name != "" && Trim(name) != "" then
      Take(Upper(Heads(Split(name))), 2)
    else
      Upper(Take(email, 2))
  }

  // ---------------------------------------------------------------------------
  // Rows.

  /** `full_name || email`. */
  function DisplayName(p: Profile): (shown: string)
    ensures p.fullName != "" ==> shown == p.fullName
    ensures p.fullName == "" ==> shown == p.email
  {
    if p.fullName != "" then p.fullName else p.email
  }

  datatype Row = Row(
    icon: RankIcon, badge: RankBadge, initials: string, name: string,
    score: int, scoreColor: ScoreColor, highlighted: bool, youBadge: bool)

  /** One rendered entry: highlighted, and marked "You", exactly when it belongs to the current user. */
  function RowOf(entry: LeaderboardEntry, currentUserId: Option<string>): (row: Row)
    ensures row.highlighted <==> currentUserId == Some(entry.userId)
    ensures row.youBadge == row.highlighted
    ensures row.icon == RankIconOf(entry.rank) && row.badge == RankBadgeOf(entry.rank)
    ensures row.scoreColor == ScoreTextColor(entry.score) && row.score == entry.score
    ensures row.initials == Initials(entry.profile.fullName, entry.profile.email)
    ensures row.name == DisplayName(entry.profile)
  {
    var mine := currentUserId.Some? && currentUserId.value == entry.userId;
    Row(RankIconOf(entry.rank), RankBadgeOf(entry.rank),
      Initials(entry.profile.fullName, entry.profile.email), DisplayName(entry.profile),
      entry.score, ScoreTextColor(entry.score), mine, mine)
  }

  datatype Table = Table(rows: seq<Row>, emptyMessage: bool)

  /** The whole table: one row per entry in the given order, and the empty-state text iff there are none. */
  function TableOf(entries: seq<LeaderboardEntry>, currentUserId: Option<string>): (t: Table)
    ensures |t.rows| == |entries|
    ensures forall i :: 0 <= i < |entries| ==> t.rows[i] == RowOf(entries[i], currentUserId)
    ensures t.emptyMessage <==> entries == []
  {
    Table(seq(|entries|, i requires 0 <= i < |entries| => RowOf(entries[i], currentUserId)),
      |entries| == 0)
  }
}
