/**
 * Course-badge truncation shared by the listing card and the college card:
 * `courses.slice(0, cap)` badges, then a "+N more" badge when `courses.length > cap`.
 */
module Badges {
  import opened Wrappers

  /** What a badge row shows: the leading items, and the count on the "+N more" badge if there is one. */
  datatype BadgeRow<T> = BadgeRow(shown: seq<T>, more: Option<nat>)

  function Min(a: nat, b: nat): nat {
    if a <= b then a else b
  }

  function Truncate<T>(items: seq<T>, cap: nat): (r: BadgeRow<T>)
    ensures |r.shown| == Min(cap, |items|)
    ensures r.shown <= items
    ensures r.more.Some? <==> |items| > cap
    ensures r.more.Some? ==> |r.shown| + r.more.value == |items|
  {
    BadgeRow(items[..Min(cap, |items|)], if |items| > cap then Some(|items| - cap) else None)
  }

  /** The shown badges followed by the hidden items give back the whole list, and "+N" counts exactly the hidden ones. */
  lemma TruncatePartitions<T>(items: seq<T>, cap: nat)
    ensures Truncate(items, cap).shown + items[|Truncate(items, cap).shown|..] == items
    ensures |items[|Truncate(items, cap).shown|..]| == Truncate(items, cap).more.GetOr(0)
  {
  }
}
