/** Employment and education records, their list-item text, and the choice of
    active list (src/employment.rs). */
module EmploymentRecords {
  import opened Text

  /** The prefix of an item's second line: a star marks the selected item. */
  function Prefix(selected: bool): (r: string)
    ensures |r| == 3 && r[0] == ' ' && r[2] == ' '
    ensures r[1] == (if selected then '*' else ' ')
  {
    if selected then " * " else "   "
  }

  /** The four-line list item shared by both record kinds: the heading indented
      three spaces, the prefixed body, the indented date range, and a final line
      holding one space. */
  function ItemText(heading: string, body: string, start: string, end: string, selected: bool): (r: string)
    ensures |r| == |heading| + |body| + |start| + |end| + 16
  {
    "   " + heading + "\n" + Prefix(selected) + body + "\n   " + start + " - " + end + "\n "
  }

  /** Where the selection marker sits in an item. */
  function MarkerIndex(heading: string): nat
  {
    |heading| + 5
  }

  /** A selected and an unselected item have the same length and differ in
      exactly one character: the marker, '*' against ' '. */
  lemma ItemsDifferOnlyAtMarker(heading: string, body: string, start: string, end: string)
    ensures var on, off := ItemText(heading, body, start, end, true), ItemText(heading, body, start, end, false);
      && |on| == |off|
      && MarkerIndex(heading) < |on|
      && on[MarkerIndex(heading)] == '*' && off[MarkerIndex(heading)] == ' '
      && forall k :: 0 <= k < |on| && k != MarkerIndex(heading) ==> on[k] == off[k]
  {
    var lead := "   " + heading + "\n";
    var rest := body + "\n   " + start + " - " + end + "\n ";
    forall selected: bool
      ensures ItemText(heading, body, start, end, selected) == lead + Prefix(selected) + rest
    {
    }
    var on, off := lead + Prefix(true) + rest, lead + Prefix(false) + rest;
    assert |lead| + 1 == MarkerIndex(heading);
    forall k | 0 <= k < |on| && k != MarkerIndex(heading) ensures on[k] == off[k] {
      if k < |lead| {
        assert on[k] == lead[k] == off[k];
      } else if k < |lead| + 3 {
        assert on[k] == Prefix(true)[k - |lead|];
        assert off[k] == Prefix(false)[k - |lead|];
      } else {
        assert on[k] == rest[k - |lead| - 3] == off[k];
      }
    }
  }

  /** An item with newline-free fields reads back as its four lines. */
  lemma ItemLines(heading: string, body: string, start: string, end: string, selected: bool)
    requires '\n' !in heading && '\n' !in body && '\n' !in start && '\n' !in end
    ensures Split(ItemText(heading, body, start, end, selected))
         == ["   " + heading, Prefix(selected) + body, "   " + start + " - " + end, " "]
  {
    var l1, l2, l3 := "   " + heading, Prefix(selected) + body, "   " + start + " - " + end;
    assert ItemText(heading, body, start, end, selected) == l1 + "\n" + (l2 + "\n" + (l3 + "\n" + " "));
    SplitLine(l1, l2 + "\n" + (l3 + "\n" + " "));
    SplitLine(l2, l3 + "\n" + " ");
    SplitLine(l3, " ");
    SplitSingleLine(" ");
  }

  datatype EmploymentEntry = EmploymentEntry(employer: string, role: string, startDate: string, endDate: string)
  {
    /** The list item; the marker is '*' exactly when selected. */
    function Representation(selected: bool): (r: string)
      ensures |r| == |employer| + |role| + |startDate| + |endDate| + 16
      ensures MarkerIndex(employer) < |r| && r[MarkerIndex(employer)] == (if selected then '*' else ' ')
    {
      ItemsDifferOnlyAtMarker(employer, role, startDate, endDate);
      ItemText(employer, role, startDate, endDate, selected)
    }
  }

  datatype EducationEntry = EducationEntry(educator: string, qualification: string, startDate: string, endDate: string)
  {
    /** The list item; the marker is '*' exactly when selected. */
    function Representation(selected: bool): (r: string)
      ensures |r| == |educator| + |qualification| + |startDate| + |endDate| + 16
      ensures MarkerIndex(educator) < |r| && r[MarkerIndex(educator)] == (if selected then '*' else ' ')
    {
      ItemsDifferOnlyAtMarker(educator, qualification, startDate, endDate);
      ItemText(educator, qualification, startDate, endDate, selected)
    }
  }

  /** Which of the two lists on the combined tab is active. */
  datatype EmploymentEducation = Employment | Education

  /** The other list: the two values swap. */
  function Toggled(x: EmploymentEducation): (r: EmploymentEducation)
    ensures r != x
  {
    match x
    case Employment => Education
    case Education => Employment
  }

  /** Toggling twice is the identity, and `x` and its toggle are the only two
      values. */
  lemma ToggledInvolution(x: EmploymentEducation, y: EmploymentEducation)
    ensures Toggled(Toggled(x)) == x
    ensures y == x || y == Toggled(x)
  {
  }

  const Kraken := EmploymentEntry("Kraken", "Software Engineer II", "Dec 2024", "Present")
  const Mpb := EmploymentEntry("MPB.com", "Software Engineer", "Apr 2023", "Dec 2024")
  const Socius := EmploymentEntry("Socius Ventures", "Software Engineer", "Oct 2022", "Apr 2023")

  const UosPhd := EducationEntry("University of Sussex", "Ph.D Physics", "Sep 2018", "Dec 2022")
  const UosMphys := EducationEntry("University of Sussex", "MPhys Physics", "Sep 2014", "July 2018")
}
