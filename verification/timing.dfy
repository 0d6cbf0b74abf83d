/** `build_timing_tags`: one `timing` tag per window of every timing entry. */
module Timing {
  import opened Records
  import opened Text

  /** The shape every timing tag has: code "timing" and the four entries
      `day_from`, `day_to`, `time_from`, `time_to` in that order. */
  predicate IsTimingTag(t: Tag) {
    && t.code == "timing"
    && |t.list| == 4
    && t.list[0].code == "day_from"
    && t.list[1].code == "day_to"
    && t.list[2].code == "time_from"
    && t.list[3].code == "time_to"
  }

  /** The tag of one window within a day range: the days as decimals, the
      times with their separator removed. */
  function TimingTag(days: DayRange, w: Window): (t: Tag)
    ensures IsTimingTag(t)
    ensures t.list[0].value == IntToDecimal(days.from) && t.list[1].value == IntToDecimal(days.to)
    ensures t.list[2].value == FormatTimeHhmm(w.from) && t.list[3].value == FormatTimeHhmm(w.to)
  {
    Tag("timing", [
      TagEntry("day_from", IntToDecimal(days.from)),
      TagEntry("day_to", IntToDecimal(days.to)),
      TagEntry("time_from", FormatTimeHhmm(w.from)),
      TagEntry("time_to", FormatTimeHhmm(w.to))])
  }

  /** Number of windows over all the entries. */
  function WindowCount(entries: seq<TimingEntry>): nat {
    if |entries| == 0 then 0 else |entries[0].timings| + WindowCount(entries[1..])
  }

  /** The tags of one entry, in window order. */
  function EntryTags(e: TimingEntry): seq<Tag> {
    seq(|e.timings|, j requires 0 <= j < |e.timings| => TimingTag(e.daysRange, e.timings[j]))
  }

  function BuildTimingTags(entries: seq<TimingEntry>): (tags: seq<Tag>)
    ensures |tags| == WindowCount(entries)
    ensures forall k :: 0 <= k < |tags| ==> IsTimingTag(tags[k])
  {
    if |entries| == 0 then [] else EntryTags(entries[0]) + BuildTimingTags(entries[1..])
  }

  /** The tags of two runs of entries are the two runs' tags end to end: no
      de-duplication and no reordering across entries. */
  lemma {:induction false} TimingTagsConcat(a: seq<TimingEntry>, b: seq<TimingEntry>)
    ensures BuildTimingTags(a + b) == BuildTimingTags(a) + BuildTimingTags(b)
    ensures WindowCount(a + b) == WindowCount(a) + WindowCount(b)
  {
    if |a| > 0 {
      assert (a + b)[1..] == a[1..] + b;
      TimingTagsConcat(a[1..], b);
    } else {
      assert a + b == b;
    }
  }

  lemma {:induction false} OneEntryTags(e: TimingEntry)
    ensures BuildTimingTags([e]) == EntryTags(e)
    ensures WindowCount([e]) == |e.timings|
  {
    assert [e][1..] == [];
  }

  /** Entry-then-window order: the tag of window `j` of entry `i` sits after
      the windows of all earlier entries and the `j` earlier windows of its
      own entry. */
  lemma {:induction false} TimingTagsOrder(entries: seq<TimingEntry>, i: nat, j: nat)
    requires i < |entries| && j < |entries[i].timings|
    ensures WindowCount(entries[..i]) + j < |BuildTimingTags(entries)|
    ensures BuildTimingTags(entries)[WindowCount(entries[..i]) + j]
         == TimingTag(entries[i].daysRange, entries[i].timings[j])
  {
    var pre, e, post := entries[..i], entries[i], entries[i + 1..];
    assert entries == pre + ([e] + post);
    TimingTagsConcat(pre, [e] + post);
    TimingTagsConcat([e], post);
    OneEntryTags(e);
    IndexInMiddle(BuildTimingTags(pre), EntryTags(e), BuildTimingTags(post), j);
  }

  lemma IndexInMiddle<T>(a: seq<T>, b: seq<T>, c: seq<T>, j: nat)
    requires j < |b|
    ensures |a| + j < |a + (b + c)| && (a + (b + c))[|a| + j] == b[j]
  {
  }
}
