/** Whole-session properties: key presses through the dispatcher followed by
    composition of the combined tab. */
module Scenarios {
  import opened Tabs
  import opened EmploymentRecords
  import opened Navigation
  import opened Keymap
  import opened EmploymentView

  /** From the start state, 'e' then Ctrl-n twice lands on the third employer,
      which is both starred and shown in the description panel. */
  lemma DefaultToThirdEmployer(description: string, software: SoftwareStack, educationDescription: string)
    ensures var ctrlN := KeyEvent(Char('n'), {Control});
      var s := Dispatch(Dispatch(Dispatch(DefaultNav, KeyEvent(Char('e'), {})), ctrlN), ctrlN);
      && s.tab == EmploymentAndEducation
      && s.employmentCursor == 2
      && StarredEmployment(s) == {2}
      && DescriptionBlock(s, description, software, educationDescription)
         == Some(EmploymentPanel(TitleText("Socius Ventures", "Software Engineer", "Oct 2022", "Apr 2023"),
                                 description, SoftwareText(software)))
  {
    var ctrlN := KeyEvent(Char('n'), {Control});
    var s1 := Dispatch(DefaultNav, KeyEvent(Char('e'), {}));
    var s2 := Dispatch(s1, ctrlN);
    var s := Dispatch(s2, ctrlN);
    assert s.employmentCursor == 2;
    StarredEmploymentExact(s);
  }

  /** With three employers, the cursor on the second and the employment list
      active, only the second item is starred and its record is shown. */
  lemma SecondOfThree(s: Nav, description: string, software: SoftwareStack, educationDescription: string)
    requires s.tab == EmploymentAndEducation && s.active == Employment
    requires |s.employmentHistory| == 3 && s.employmentCursor == 1
    ensures StarredEmployment(s) == {1} && StarredEducation(s) == {}
    ensures var e := s.employmentHistory[1];
      DescriptionBlock(s, description, software, educationDescription)
      == Some(EmploymentPanel(TitleText(e.employer, e.role, e.startDate, e.endDate),
                              description, SoftwareText(software)))
  {
    StarredEmploymentExact(s);
    StarredEducationExact(s);
  }

  /** An empty active list yields no description panel and no star. */
  lemma EmptyActiveList(s: Nav, description: string, software: SoftwareStack, educationDescription: string)
    requires s.active == Employment && s.employmentHistory == []
    ensures DescriptionBlock(s, description, software, educationDescription) == None
    ensures StarredEmployment(s) == {} && StarredEducation(s) == {}
  {
    AtMostOneStar(s);
    StarredEmploymentExact(s);
  }

  /** The same session driven through the state object and the event loop's
      key handler; 'q' then ends it without touching the state. */
  method Session()
  {
    var state := new State.Default();
    var ctrlN := KeyEvent(Char('n'), {Control});
    var quit := HandleKey(KeyEvent(Char('e'), {}), state);
    assert !quit && state.selectedTab == EmploymentAndEducation;
    quit := HandleKey(ctrlN, state);
    quit := HandleKey(ctrlN, state);
    quit := HandleKey(ctrlN, state);
    assert state.selectedEmploymentEntry == 2;
    quit := HandleKey(KeyEvent(Char('o'), {Control}), state);
    assert state.employmentOrEducation == Education && state.selectedEmploymentEntry == 2;
    quit := HandleKey(ctrlN, state);
    assert state.selectedEducationEntry == 1;
    quit := HandleKey(KeyEvent(Char('q'), {}), state);
    assert quit && state.selectedEducationEntry == 1;
  }
}
