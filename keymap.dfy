/** The key dispatcher (src/keymap.rs): tab-switch keys first, then, on the
    combined tab only, the cursor keys of the active list and the list toggle.
    `Dispatch` is the transition on values; `GlobalKeyMap` applies it to a
    `State` through the state's own mutators. */
module Keymap {
  import opened Tabs
  import opened EmploymentRecords
  import opened Navigation

  /** A character key, or any other key (Enter, arrows, function keys, ...),
      none of which the dispatcher recognises. */
  datatype KeyCode = Char(c: char) | Other(code: nat)

  datatype Modifier = Shift | Control | Alt | Super | Hyper | Meta

  datatype KeyEvent = KeyEvent(code: KeyCode, modifiers: set<Modifier>)

  /** The key is `c` held with Control and no other modifier: the source
      compares the modifier set with CONTROL for equality. */
  predicate IsControl(key: KeyEvent, c: char)
  {
    key.code == Char(c) && key.modifiers == {Control}
  }

  /** The tab-switch step; modifiers are not consulted. */
  function TabStep(s: Nav, key: KeyEvent): (r: Nav)
    ensures r.(tab := s.tab) == s
    ensures key.code != Char('e') && key.code != Char('a') && key.code != Char('c') ==> r == s
  {
    match key.code
    case Char('e') => s.SetSelectedTab(EmploymentAndEducation)
    case Char('a') => s.SetSelectedTab(AboutMe)
    case Char('c') => s.SetSelectedTab(ContactDetails)
    case _ => s
  }

  /** The only key that can underflow is a "next" move on an empty active
      list of the combined tab. */
  predicate CanDispatch(s: Nav, key: KeyEvent)
  {
    s.tab == EmploymentAndEducation && IsControl(key, 'n') ==>
      if s.active == Employment then |s.employmentHistory| > 0 else |s.educationHistory| > 0
  }

  /** The combined tab's table: a cursor move chosen by the active list, then
      the toggle. */
  function EmploymentDispatch(s: Nav, key: KeyEvent): (r: Nav)
    requires IsControl(key, 'n') ==>
      if s.active == Employment then |s.employmentHistory| > 0 else |s.educationHistory| > 0
    ensures r.tab == s.tab
    ensures r.employmentHistory == s.employmentHistory && r.educationHistory == s.educationHistory
    ensures !IsControl(key, 'o') ==> r.active == s.active
  {
    var moved :=
      match s.active
      case Employment =>
        if IsControl(key, 'n') then s.NextEmployer()
        else if IsControl(key, 'p') then s.PreviousEmployer()
        else s
      case Education =>
        if IsControl(key, 'n') then s.NextEducator()
        else if IsControl(key, 'p') then s.PreviousEducator()
        else s;
    if IsControl(key, 'o') then moved.ToggleEmploymentOrEducation() else moved
  }

  /** The whole dispatch of one key. */
  function Dispatch(s: Nav, key: KeyEvent): (r: Nav)
    requires CanDispatch(s, key)
    ensures r.employmentHistory == s.employmentHistory && r.educationHistory == s.educationHistory
  {
    var t := TabStep(s, key);
    if t.tab == EmploymentAndEducation then EmploymentDispatch(t, key) else t
  }

  method GlobalKeyMap(key: KeyEvent, state: State)
    requires CanDispatch(state.Model(), key)
    modifies state
    ensures state.Model() == Dispatch(old(state.Model()), key)
  {
    match key.code {
      case Char('e') => state.SetSelectedTab(EmploymentAndEducation);
      case Char('a') => state.SetSelectedTab(AboutMe);
      case Char('c') => state.SetSelectedTab(ContactDetails);
      case _ =>
    }
    if state.selectedTab == EmploymentAndEducation {
      EmploymentKeymap(key, state);
    }
  }

  method EmploymentKeymap(key: KeyEvent, state: State)
    requires IsControl(key, 'n') ==>
      if state.employmentOrEducation == Employment then |state.employmentHistory| > 0
      else |state.educationHistory| > 0
    modifies state
    ensures state.Model() == EmploymentDispatch(old(state.Model()), key)
  {
    match state.employmentOrEducation {
      case Employment =>
        if IsControl(key, 'n') {
          state.NextEmployer();
        } else if IsControl(key, 'p') {
          state.PreviousEmployer();
        }
      case Education =>
        if IsControl(key, 'n') {
          state.NextEducator();
        } else if IsControl(key, 'p') {
          state.PreviousEducator();
        }
    }
    if IsControl(key, 'o') {
      state.ToggleEmploymentOrEducation();
    }
  }

  /** One key as the event loop handles it: 'q' ends the session before the
      dispatcher sees it, whatever the modifiers. */
  method HandleKey(key: KeyEvent, state: State) returns (quit: bool)
    requires CanDispatch(state.Model(), key)
    modifies state
    ensures quit <==> key.code == Char('q')
    ensures state.Model() == if quit then old(state.Model()) else Dispatch(old(state.Model()), key)
  {
    if key.code == Char('q') {
      return true;
    }
    GlobalKeyMap(key, state);
    return false;
  }

  /** 'e', 'a' and 'c' select their tab from any tab, with any modifiers, and
      change nothing else. */
  lemma SwitchKeys(s: Nav, m: set<Modifier>)
    ensures Dispatch(s, KeyEvent(Char('e'), m)) == s.SetSelectedTab(EmploymentAndEducation)
    ensures Dispatch(s, KeyEvent(Char('a'), m)) == s.SetSelectedTab(AboutMe)
    ensures Dispatch(s, KeyEvent(Char('c'), m)) == s.SetSelectedTab(ContactDetails)
  {
  }

  /** A key that is neither a tab switch nor one of the three control chords
      is ignored on every tab. */
  lemma UnrecognisedKeys(s: Nav, key: KeyEvent)
    requires key.code != Char('e') && key.code != Char('a') && key.code != Char('c')
    requires !IsControl(key, 'n') && !IsControl(key, 'p') && !IsControl(key, 'o')
    ensures CanDispatch(s, key) && Dispatch(s, key) == s
  {
  }

  /** Off the combined tab, a key does at most the tab switch. */
  lemma OutsideCombinedTab(s: Nav, key: KeyEvent)
    requires CanDispatch(s, key)
    requires TabStep(s, key).tab != EmploymentAndEducation
    ensures Dispatch(s, key) == TabStep(s, key)
    ensures Dispatch(s, key).(tab := s.tab) == s
  {
  }

  /** With the employment list active, Ctrl-p moves its cursor back on any
      list, and Ctrl-n moves it forward on a non-empty one; nothing else
      changes. */
  lemma EmploymentCursorKeys(s: Nav)
    requires s.tab == EmploymentAndEducation && s.active == Employment
    ensures |s.employmentHistory| > 0 ==> Dispatch(s, KeyEvent(Char('n'), {Control})) == s.NextEmployer()
    ensures Dispatch(s, KeyEvent(Char('p'), {Control})) == s.PreviousEmployer()
  {
  }

  /** With the education list active, Ctrl-p moves its cursor back on any
      list, and Ctrl-n moves it forward on a non-empty one; nothing else
      changes. */
  lemma EducationCursorKeys(s: Nav)
    requires s.tab == EmploymentAndEducation && s.active == Education
    ensures |s.educationHistory| > 0 ==> Dispatch(s, KeyEvent(Char('n'), {Control})) == s.NextEducator()
    ensures Dispatch(s, KeyEvent(Char('p'), {Control})) == s.PreviousEducator()
  {
  }

  /** Ctrl-o toggles the active list on the combined tab and does nothing
      elsewhere. */
  lemma ToggleKey(s: Nav)
    ensures Dispatch(s, KeyEvent(Char('o'), {Control}))
         == if s.tab == EmploymentAndEducation then s.ToggleEmploymentOrEducation() else s
  {
  }

  /** 'n', 'p' and 'o' do nothing unless held with exactly Control. */
  lemma ModifiersMustBeExactlyControl(s: Nav, c: char, m: set<Modifier>)
    requires c == 'n' || c == 'p' || c == 'o'
    requires m != {Control}
    ensures Dispatch(s, KeyEvent(Char(c), m)) == s
  {
  }

  /** One key never both moves a cursor and toggles the list, never changes the
      histories, and keeps both cursors in range. */
  lemma DispatchStep(s: Nav, key: KeyEvent)
    requires CanDispatch(s, key)
    ensures var r := Dispatch(s, key);
      && r.employmentHistory == s.employmentHistory
      && r.educationHistory == s.educationHistory
      && (r.active != s.active ==>
            r.employmentCursor == s.employmentCursor && r.educationCursor == s.educationCursor)
      && (r.employmentCursor != s.employmentCursor ==> r.educationCursor == s.educationCursor)
  {
  }

  /** Every key keeps a valid state valid. */
  lemma DispatchPreservesValid(s: Nav, key: KeyEvent)
    requires s.Valid()
    ensures CanDispatch(s, key)
    ensures Dispatch(s, key).Valid()
  {
  }

  /** The letter in each tab's title is the key that selects it. */
  lemma TitleNamesItsKey(s: Nav, t: TabsHeading, m: set<Modifier>)
    ensures |Title(t)| >= 3
    ensures Dispatch(s, KeyEvent(Char(TitleKey(Title(t))), m)).tab == t
  {
    TitleKeysDistinct(t, t);
  }
}
