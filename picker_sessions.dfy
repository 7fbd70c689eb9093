/** The session records the picker shows, the trimming of a session's messages
    to the most recent ones, and the relative age label of a session
    (`format_relative_time`).

    Reading session files is left out: the messages a file holds arrive as a
    sequence, and the current time arrives as a parameter. */
module Sessions {
  import opened Text

  /** `SessionInfo`; a path is its text. */
  datatype SessionInfo = SessionInfo(
    id: string,
    path: string,
    cwd: string,
    age: string,
    mtime: nat,
    messageCount: nat,
    lastRole: string,
    totalTokens: nat,
    model: string)

  /** One previewed message: (role, content, timestamp). */
  datatype Message = Message(role: string, content: string, timestamp: string)

  // ---------------------------------------------------------------------------
  // Keeping the last messages

  /** The trimming at the end of `extract_recent_messages_with_timestamps`:
      when there are more than `limit` messages, the oldest are drained so that
      the last `limit` remain, in order. */
  function KeepLast(messages: seq<Message>, limit: nat): (r: seq<Message>)
    ensures |r| == if |messages| > limit then limit else |messages|
    ensures r == messages[|messages| - |r|..]
  {
    if |messages| > limit then messages[|messages| - limit..] else messages
  }

  /** Trimming twice to the same limit is trimming once. */
  lemma KeepLastIdempotent(messages: seq<Message>, limit: nat)
    ensures KeepLast(KeepLast(messages, limit), limit) == KeepLast(messages, limit)
  {
  }

  /** Trimming to one limit and then to a smaller one is trimming to the
      smaller one. */
  lemma KeepLastShrinks(messages: seq<Message>, limit: nat, smaller: nat)
    requires smaller <= limit
    ensures KeepLast(KeepLast(messages, limit), smaller) == KeepLast(messages, smaller)
  {
    var once := KeepLast(messages, limit);
    if |once| > smaller {
      assert once[|once| - smaller..] == messages[|messages| - smaller..];
    }
  }

  /** The newest message always survives a trim to a positive limit. */
  lemma KeepLastKeepsNewest(messages: seq<Message>, limit: nat)
    requires |messages| > 0 && limit > 0
    ensures |KeepLast(messages, limit)| > 0
    ensures KeepLast(messages, limit)[|KeepLast(messages, limit)| - 1] == messages[|messages| - 1]
  {
  }

  // ---------------------------------------------------------------------------
  // Relative age

  /** A unit of the age label: its length in seconds and its suffix. */
  datatype TimeUnit = TimeUnit(seconds: nat, suffix: string)

  /** The units from seconds to years; each threshold of the label is the
      length of the next unit (a month is 30 days, a year 365). */
  const Units: seq<TimeUnit> := [
    TimeUnit(1, "s"),
    TimeUnit(60, "m"),
    TimeUnit(3600, "h"),
    TimeUnit(86400, "d"),
    TimeUnit(604800, "w"),
    TimeUnit(2592000, "mo"),
    TimeUnit(31536000, "y")
  ]

  /** `u64::saturating_sub`. */
  function SaturatingSub(a: nat, b: nat): (r: nat)
    ensures a >= b ==> r + b == a
    ensures a < b ==> r == 0
  {
    if a >= b then a - b else 0
  }

  /** The label for an age of `diff` seconds, as the chain of comparisons of
      `format_relative_time` writes it. */
  function FormatAge(diff: nat): string {
    if diff < 60 then NatToString(diff) + "s ago"
    else if diff < 3600 then NatToString(diff / 60) + "m ago"
    else if diff < 86400 then NatToString(diff / 3600) + "h ago"
    else if diff < 604800 then NatToString(diff / 86400) + "d ago"
    else if diff < 2592000 then NatToString(diff / 604800) + "w ago"
    else if diff < 31536000 then NatToString(diff / 2592000) + "mo ago"
    else NatToString(diff / 31536000) + "y ago"
  }

  /** `format_relative_time`, with the current time passed in. */
  function FormatRelativeTime(now: nat, mtime: nat): string {
    FormatAge(SaturatingSub(now, mtime))
  }

  /** Unit `k` is the one for `diff`: the largest unit not longer than `diff`
      (seconds for an age under a minute). */
  predicate IsUnitFor(diff: nat, k: nat) {
    && k < |Units|
    && (k == 0 || Units[k].seconds <= diff)
    && (k + 1 < |Units| ==> diff < Units[k + 1].seconds)
  }

  /** The reference label: the age counted in whole units of its unit. */
  function UnitLabel(diff: nat, k: nat): string
    requires k < |Units|
  {
    NatToString(diff / Units[k].seconds) + Units[k].suffix + " ago"
  }

  /** Every age has exactly one unit. */
  lemma UnitForUnique(diff: nat, k: nat, l: nat)
    requires IsUnitFor(diff, k) && IsUnitFor(diff, l)
    ensures k == l
  {
  }

  /** The unit of an age, computed independently of the chain of comparisons. */
  function UnitFor(diff: nat): (k: nat)
    ensures IsUnitFor(diff, k)
  {
    if diff < 60 then 0
    else if diff < 3600 then 1
    else if diff < 86400 then 2
    else if diff < 604800 then 3
    else if diff < 2592000 then 4
    else if diff < 31536000 then 5
    else 6
  }

  /** The chain of comparisons picks the unit of the age and counts the age in
      whole units of it. */
  lemma FormatAgeByUnit(diff: nat, k: nat)
    requires IsUnitFor(diff, k)
    ensures FormatAge(diff) == UnitLabel(diff, k)
  {
    UnitForUnique(diff, k, UnitFor(diff));
    var n := NatToString(diff / Units[k].seconds);
    assert n + Units[k].suffix + " ago" == n + (Units[k].suffix + " ago");
  }

  /** Above seconds, the count is at least one, and that many units stay below
      the next unit: 1 to 59 minutes, 1 to 23 hours, 1 to 6 days, 1 to 4 weeks
      and 1 to 12 months. */
  lemma AgeCountRange(diff: nat, k: nat)
    requires IsUnitFor(diff, k) && 0 < k < |Units| - 1
    ensures 1 <= diff / Units[k].seconds
    ensures diff / Units[k].seconds * Units[k].seconds < Units[k + 1].seconds
  {
    if k == 1 {
      assert 1 <= diff / 60 && diff / 60 * 60 <= diff;
    } else if k == 2 {
      assert 1 <= diff / 3600 && diff / 3600 * 3600 <= diff;
    } else if k == 3 {
      assert 1 <= diff / 86400 && diff / 86400 * 86400 <= diff;
    } else if k == 4 {
      assert 1 <= diff / 604800 && diff / 604800 * 604800 <= diff;
    } else {
      assert 1 <= diff / 2592000 && diff / 2592000 * 2592000 <= diff;
    }
  }

  /** The number in the label reads back as the age in whole units. */
  lemma AgeLabelCount(diff: nat)
    ensures var k := UnitFor(diff);
      FormatAge(diff) == NatToString(diff / Units[k].seconds) + Units[k].suffix + " ago"
      && ParseDecimal(NatToString(diff / Units[k].seconds)) == diff / Units[k].seconds
  {
    FormatAgeByUnit(diff, UnitFor(diff));
    ParseNatToString(diff / Units[UnitFor(diff)].seconds);
  }

  /** A modification time in the future counts as an age of zero seconds. */
  lemma FutureTimeIsNow(now: nat, mtime: nat)
    requires now <= mtime
    ensures FormatRelativeTime(now, mtime) == "0s ago"
  {
    assert NatToString(0) == "0";
  }
}
