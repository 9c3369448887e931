/** The combined Employment & Education tab (src/ui/employment.rs): the two
    lists with their starred item and emphasis, and the description panel of
    the active list's current record. Widgets are modelled by what they carry:
    item texts, a title, an emphasis flag and a selected index. */
module EmploymentView {
  import opened Text
  import opened EmploymentRecords
  import opened Navigation

  datatype Option<T> = None | Some(value: T)

  /** The widget's own selection record, which `list_state.select` sets. */
  class ListState {
    var selected: Option<nat>

    constructor ()
      ensures selected == None
    {
      selected := None;
    }

    method Select(index: Option<nat>)
      modifies this
      ensures selected == index
    {
      selected := index;
    }
  }

  /** A bordered block: its title and whether its border is emphasised. */
  datatype Block = Block(title: string, emphasisedBorder: bool)

  /** A list widget: its item texts, its block, and whether the selected item
      is drawn with the highlight style. */
  datatype ListWidget = ListWidget(items: seq<string>, block: Block, highlighted: bool)

  /** One item per employment entry, in order; the item at the cursor is
      starred when the employment list is active. */
  function EmploymentItems(s: Nav): (r: seq<string>)
    ensures |r| == |s.employmentHistory|
  {
    seq(|s.employmentHistory|, i requires 0 <= i < |s.employmentHistory| =>
      s.employmentHistory[i].Representation(i == s.employmentCursor && s.active == Employment))
  }

  function EducationItems(s: Nav): (r: seq<string>)
    ensures |r| == |s.educationHistory|
  {
    seq(|s.educationHistory|, i requires 0 <= i < |s.educationHistory| =>
      s.educationHistory[i].Representation(i == s.educationCursor && s.active == Education))
  }

  /** The positions of the employment items drawn with the star. */
  function StarredEmployment(s: Nav): set<nat>
  {
    set i: nat | i < |s.employmentHistory| && EmploymentItems(s)[i] == s.employmentHistory[i].Representation(true)
  }

  function StarredEducation(s: Nav): set<nat>
  {
    set i: nat | i < |s.educationHistory| && EducationItems(s)[i] == s.educationHistory[i].Representation(true)
  }

  /** Item `i` of the employment list is starred exactly when it is under the
      cursor and the employment list is active. */
  lemma StarredEmploymentExact(s: Nav)
    ensures StarredEmployment(s)
         == if s.active == Employment && s.employmentCursor < |s.employmentHistory| then {s.employmentCursor} else {}
  {
    forall i: nat | i < |s.employmentHistory|
      ensures i in StarredEmployment(s) <==> i == s.employmentCursor && s.active == Employment
    {
      var e := s.employmentHistory[i];
      ItemsDifferOnlyAtMarker(e.employer, e.role, e.startDate, e.endDate);
    }
  }

  lemma StarredEducationExact(s: Nav)
    ensures StarredEducation(s)
         == if s.active == Education && s.educationCursor < |s.educationHistory| then {s.educationCursor} else {}
  {
    forall i: nat | i < |s.educationHistory|
      ensures i in StarredEducation(s) <==> i == s.educationCursor && s.active == Education
    {
      var e := s.educationHistory[i];
      ItemsDifferOnlyAtMarker(e.educator, e.qualification, e.startDate, e.endDate);
    }
  }

  /** Each list holds every record's own item, in record order: the starred
      form at the starred positions and the plain form everywhere else. */
  lemma ItemsInOrder(s: Nav)
    ensures forall i :: 0 <= i < |s.employmentHistory| ==>
      EmploymentItems(s)[i] == s.employmentHistory[i].Representation(i in StarredEmployment(s))
    ensures forall i :: 0 <= i < |s.educationHistory| ==>
      EducationItems(s)[i] == s.educationHistory[i].Representation(i in StarredEducation(s))
  {
    StarredEmploymentExact(s);
    StarredEducationExact(s);
  }

  /** Across both lists at most one item is starred, exactly one when the
      active cursor is in range, and none in the inactive list. */
  lemma AtMostOneStar(s: Nav)
    ensures |StarredEmployment(s)| + |StarredEducation(s)| <= 1
    ensures s.Valid() ==> |StarredEmployment(s)| + |StarredEducation(s)| == 1
    ensures s.active == Employment ==> StarredEducation(s) == {}
    ensures s.active == Education ==> StarredEmployment(s) == {}
  {
    StarredEmploymentExact(s);
    StarredEducationExact(s);
  }

  /** The employment list widget as `employment_block` builds it. */
  function EmploymentList(s: Nav): (r: ListWidget)
    ensures r.items == EmploymentItems(s) && r.block.title == "Employment"
    ensures r.block.emphasisedBorder == r.highlighted == (s.active == Employment)
  {
    ListWidget(EmploymentItems(s), Block("Employment", s.active == Employment), s.active == Employment)
  }

  function EducationList(s: Nav): (r: ListWidget)
    ensures r.items == EducationItems(s) && r.block.title == "Education"
    ensures r.block.emphasisedBorder == r.highlighted == (s.active == Education)
  {
    ListWidget(EducationItems(s), Block("Education", s.active == Education), s.active == Education)
  }

  /** Exactly one of the two lists is emphasised and highlighted: the active
      one. */
  lemma ExactlyOneEmphasised(s: Nav)
    ensures EmploymentList(s).block.emphasisedBorder != EducationList(s).block.emphasisedBorder
    ensures EmploymentList(s).highlighted != EducationList(s).highlighted
    ensures EmploymentList(s).block.emphasisedBorder == EmploymentList(s).highlighted == (s.active == Employment)
  {
  }

  method EmploymentBlock(listState: ListState, s: Nav) returns (list: ListWidget)
    modifies listState
    ensures listState.selected == Some(s.employmentCursor)
    ensures list == EmploymentList(s)
  {
    listState.Select(Some(s.employmentCursor));
    var items := EmploymentItems(s);
    var block := Block("Employment", false);
    if s.active == Employment {
      block := block.(emphasisedBorder := true);
    }
    list := ListWidget(items, block, false);
    if s.active == Employment {
      list := list.(highlighted := true);
    }
  }

  method EducationBlock(listState: ListState, s: Nav) returns (list: ListWidget)
    modifies listState
    ensures listState.selected == Some(s.educationCursor)
    ensures list == EducationList(s)
  {
    listState.Select(Some(s.educationCursor));
    var items := EducationItems(s);
    var block := Block("Education", false);
    if s.active == Education {
      block := block.(emphasisedBorder := true);
    }
    list := ListWidget(items, block, false);
    if s.active == Education {
      list := list.(highlighted := true);
    }
  }

  /** The three-line title of the description panel. */
  function TitleText(heading: string, body: string, start: string, end: string): (r: string)
    ensures |r| == |heading| + |body| + |start| + |end| + 5
  {
    heading + "\n" + body + "\n" + start + " - " + end
  }

  /** A title with newline-free fields reads back as heading, body and date
      range. */
  lemma TitleLines(heading: string, body: string, start: string, end: string)
    requires '\n' !in heading && '\n' !in body && '\n' !in start && '\n' !in end
    ensures Split(TitleText(heading, body, start, end)) == [heading, body, start + " - " + end]
  {
    var range := start + " - " + end;
    assert TitleText(heading, body, start, end) == heading + "\n" + (body + "\n" + range);
    SplitLine(heading, body + "\n" + range);
    SplitLine(body, range);
    SplitSingleLine(range);
  }

  datatype SoftwareStack = SoftwareStack(backend: string, frontend: string, infrastructure: string)

  /** The software-stack paragraph of an employment record (the label
      "Infrastructre" is spelt as the source spells it). */
  function SoftwareText(stack: SoftwareStack): (r: string)
    ensures |r| == |stack.backend| + |stack.frontend| + |stack.infrastructure| + 52
  {
    "\n" + "Software Stack" + "\n" + "Backend: " + stack.backend + "\n" + "Frontend: " + stack.frontend
      + "\n" + "Infrastructre: " + stack.infrastructure
  }

  /** The software paragraph as its five lines joined by newlines. */
  lemma SoftwareTextShape(stack: SoftwareStack)
    ensures SoftwareText(stack)
         == "" + "\n" + ("Software Stack" + "\n" + (("Backend: " + stack.backend) + "\n"
              + (("Frontend: " + stack.frontend) + "\n" + ("Infrastructre: " + stack.infrastructure))))
  {
  }

  /** A software paragraph with newline-free fields reads back as an empty
      line, the heading and one labelled line per field. */
  lemma SoftwareLines(stack: SoftwareStack)
    requires '\n' !in stack.backend && '\n' !in stack.frontend && '\n' !in stack.infrastructure
    ensures Split(SoftwareText(stack))
         == ["", "Software Stack", "Backend: " + stack.backend, "Frontend: " + stack.frontend,
             "Infrastructre: " + stack.infrastructure]
  {
    var l2, l3, l4 := "Backend: " + stack.backend, "Frontend: " + stack.frontend,
                      "Infrastructre: " + stack.infrastructure;
    assert '\n' !in "Software Stack" && '\n' !in l2 && '\n' !in l3 && '\n' !in l4;
    SoftwareTextShape(stack);
    SplitFiveLines("", "Software Stack", l2, l3, l4);
  }

  datatype DescriptionPanel =
    | EmploymentPanel(title: string, details: string, software: string)
    | EducationPanel(title: string, details: string)

  /** The record under a cursor, when there is one. */
  function EmploymentEntryAt(s: Nav): (r: Option<EmploymentEntry>)
    ensures r.Some? <==> s.employmentCursor < |s.employmentHistory|
    ensures r.Some? ==> r.value in s.employmentHistory
  {
    if s.employmentCursor < |s.employmentHistory| then Some(s.employmentHistory[s.employmentCursor]) else None
  }

  function EducationEntryAt(s: Nav): (r: Option<EducationEntry>)
    ensures r.Some? <==> s.educationCursor < |s.educationHistory|
    ensures r.Some? ==> r.value in s.educationHistory
  {
    if s.educationCursor < |s.educationHistory| then Some(s.educationHistory[s.educationCursor]) else None
  }

  /** The description panel: the active list's record under its cursor, or
      nothing when the cursor has no record. The free-text description and the
      software stack of the record shown are parameters, since the records as
      declared carry neither. */
  function DescriptionBlock(s: Nav, employmentDescription: string, software: SoftwareStack,
                            educationDescription: string): (r: Option<DescriptionPanel>)
    ensures r.Some? ==> (r.value.EmploymentPanel? <==> s.active == Employment)
    ensures s.active == Employment ==> (r.Some? <==> s.employmentCursor < |s.employmentHistory|)
    ensures s.active == Education ==> (r.Some? <==> s.educationCursor < |s.educationHistory|)
    ensures r.Some? && s.active == Employment ==>
      var e := s.employmentHistory[s.employmentCursor];
      r.value == EmploymentPanel(TitleText(e.employer, e.role, e.startDate, e.endDate),
                                 employmentDescription, SoftwareText(software))
    ensures r.Some? && s.active == Education ==>
      var e := s.educationHistory[s.educationCursor];
      r.value == EducationPanel(TitleText(e.educator, e.qualification, e.startDate, e.endDate),
                                educationDescription)
  {
    match s.active
    case Employment =>
      (match EmploymentEntryAt(s)
       case Some(e) =>
         Some(EmploymentPanel(TitleText(e.employer, e.role, e.startDate, e.endDate),
                              employmentDescription, SoftwareText(software)))
       case None => None)
    case Education =>
      (match EducationEntryAt(s)
       case Some(e) =>
         Some(EducationPanel(TitleText(e.educator, e.qualification, e.startDate, e.endDate),
                             educationDescription))
       case None => None)
  }

  /** What the combined tab draws: its heading, both lists with their
      selection, and the description panel. */
  datatype EmploymentScreen = EmploymentScreen(
    heading: string,
    employment: ListWidget,
    employmentSelection: Option<nat>,
    education: ListWidget,
    educationSelection: Option<nat>,
    description: Option<DescriptionPanel>)

  method RenderEmployment(s: Nav, employmentDescription: string, software: SoftwareStack,
                          educationDescription: string) returns (screen: EmploymentScreen)
    ensures screen.heading == "Employment and Education History"
    ensures screen.employment == EmploymentList(s) && screen.employmentSelection == Some(s.employmentCursor)
    ensures screen.education == EducationList(s) && screen.educationSelection == Some(s.educationCursor)
    ensures screen.description == DescriptionBlock(s, employmentDescription, software, educationDescription)
  {
    var employmentListState := new ListState();
    var employmentList := EmploymentBlock(employmentListState, s);
    var educationListState := new ListState();
    var educationList := EducationBlock(educationListState, s);
    screen := EmploymentScreen("Employment and Education History",
                               employmentList, employmentListState.selected,
                               educationList, educationListState.selected,
                               DescriptionBlock(s, employmentDescription, software, educationDescription));
  }
}
