/** The display model both read screens show for a session, and the
    date-time range text the mappers build from two ISO-8601 timestamps. */
module SessionOverview {
  import opened Common

  datatype SessionOverviewModel = SessionOverviewModel(
    id: string,
    title: string,
    creatorUsername: string,
    description: string,
    dateTimeRange: string,
    imageUrl: Option<string>,
    locationName: Option<string>)

  const RangeSeparator: string := " - "

  /** `"$start - $end"`: the two timestamps verbatim around the separator. */
  function DateTimeRange(start: string, end: string): (text: string)
    ensures |text| == |start| + |RangeSeparator| + |end|
    ensures text[..|start|] == start
    ensures text[|start|..|start| + |RangeSeparator|] == RangeSeparator
    ensures text[|start| + |RangeSeparator|..] == end
  {
    start + RangeSeparator + end
  }

  /** Timestamps without spaces (as ISO-8601 ones are) can be read back from
      the label: different ranges never share a label. */
  lemma DateTimeRangeInjective(start1: string, end1: string, start2: string, end2: string)
    requires ' ' !in start1 && ' ' !in start2
    requires DateTimeRange(start1, end1) == DateTimeRange(start2, end2)
    ensures start1 == start2 && end1 == end2
  {
    if |start1| < |start2| {
      SeparatorInsideLongerStart(start1, end1, start2, end2);
    } else if |start2| < |start1| {
      SeparatorInsideLongerStart(start2, end2, start1, end1);
    }
  }

  /** If two labels agree but one start is shorter, the longer start holds
      the separator's space where the shorter one ends. */
  lemma SeparatorInsideLongerStart(start1: string, end1: string, start2: string, end2: string)
    requires DateTimeRange(start1, end1) == DateTimeRange(start2, end2)
    requires |start1| < |start2|
    ensures start2[|start1|] == ' '
  {
    var text := DateTimeRange(start1, end1);
    assert text[|start1|] == ' ';
    assert text[|start1|] == start2[|start1|];
  }
}
