/** The mutable navigation state of the viewer (src/state.rs): the selected tab,
    a cursor into each history list and the active list. `Nav` is its value;
    `State` is the object the key map mutates in place. */
module Navigation {
  import opened Tabs
  import opened EmploymentRecords

  /** The cursor after a "next" move on a list of `len` entries: one further,
      except on the last entry. `len` must be positive, since the source
      computes `len - 1` on an unsigned integer. */
  function NextIndex(cursor: nat, len: nat): (r: nat)
    requires len > 0
    ensures cursor < len - 1 ==> r == cursor + 1
    ensures cursor == len - 1 ==> r == cursor
    ensures cursor < len ==> r < len
  {
    if cursor != len - 1 then cursor + 1 else cursor
  }

  /** The cursor after a "previous" move: one back, except at 0. */
  function PreviousIndex(cursor: nat): (r: nat)
    ensures cursor > 0 ==> r == cursor - 1
    ensures cursor == 0 ==> r == 0
    ensures r <= cursor
  {
    if cursor != 0 then cursor - 1 else cursor
  }

  /** A "next" move directly followed by a "previous" one returns to the start
      unless the cursor was already on the last entry; the converse holds away
      from 0. */
  lemma NextThenPrevious(cursor: nat, len: nat)
    requires cursor < len
    ensures cursor < len - 1 ==> PreviousIndex(NextIndex(cursor, len)) == cursor
    ensures 0 < cursor ==> NextIndex(PreviousIndex(cursor), len) == cursor
  {
  }

  /** `k` "next" moves in a row. */
  function NextIndexTimes(cursor: nat, len: nat, k: nat): nat
    requires len > 0
  {
    if k == 0 then cursor else NextIndex(NextIndexTimes(cursor, len, k - 1), len)
  }

  /** `k` "previous" moves in a row. */
  function PreviousIndexTimes(cursor: nat, k: nat): nat
  {
    if k == 0 then cursor else PreviousIndex(PreviousIndexTimes(cursor, k - 1))
  }

  function Min(a: int, b: int): int { if a <= b then a else b }

  function Max(a: int, b: int): int { if a >= b then a else b }

  /** Repeated "next" moves saturate at the last entry: from a cursor in range,
      `k` moves land at `min(cursor + k, len - 1)`. */
  lemma {:induction false} NextIndexSaturates(cursor: nat, len: nat, k: nat)
    requires cursor < len
    ensures NextIndexTimes(cursor, len, k) == Min(cursor + k, len - 1)
  {
    if k > 0 {
      NextIndexSaturates(cursor, len, k - 1);
    }
  }

  /** Repeated "previous" moves saturate at 0. */
  lemma {:induction false} PreviousIndexSaturates(cursor: nat, k: nat)
    ensures PreviousIndexTimes(cursor, k) == Max(cursor - k, 0)
  {
    if k > 0 {
      PreviousIndexSaturates(cursor, k - 1);
    }
  }

  /** From the first entry, `len - 1` "next" moves reach the last entry and one
      more stays there; from the last entry, `len - 1` "previous" moves reach the
      first and one more stays there. */
  lemma WalkToEitherEnd(len: nat)
    requires len > 0
    ensures NextIndexTimes(0, len, len - 1) == len - 1
    ensures NextIndexTimes(0, len, len) == len - 1
    ensures PreviousIndexTimes(len - 1, len - 1) == 0
    ensures PreviousIndexTimes(len - 1, len) == 0
  {
    NextIndexSaturates(0, len, len - 1);
    NextIndexSaturates(0, len, len);
    PreviousIndexSaturates(len - 1, len - 1);
    PreviousIndexSaturates(len - 1, len);
  }

  /** The value of the navigation state. */
  datatype Nav = Nav(
    tab: TabsHeading,
    employmentCursor: nat,
    employmentHistory: seq<EmploymentEntry>,
    educationCursor: nat,
    educationHistory: seq<EducationEntry>,
    active: EmploymentEducation)
  {
    /** Both cursors point at an entry of their list. */
    predicate Valid()
    {
      employmentCursor < |employmentHistory| && educationCursor < |educationHistory|
    }

    function SetSelectedTab(t: TabsHeading): (r: Nav)
      ensures r.tab == t
      ensures r.(tab := tab) == this
    {
      this.(tab := t)
    }

    function NextEmployer(): (r: Nav)
      requires |employmentHistory| > 0
      ensures r.employmentCursor == NextIndex(employmentCursor, |employmentHistory|)
      ensures r.(employmentCursor := employmentCursor) == this
      ensures Valid() ==> r.Valid()
    {
      this.(employmentCursor := NextIndex(employmentCursor, |employmentHistory|))
    }

    function PreviousEmployer(): (r: Nav)
      ensures r.employmentCursor == PreviousIndex(employmentCursor)
      ensures r.(employmentCursor := employmentCursor) == this
      ensures Valid() ==> r.Valid()
    {
      this.(employmentCursor := PreviousIndex(employmentCursor))
    }

    function NextEducator(): (r: Nav)
      requires |educationHistory| > 0
      ensures r.educationCursor == NextIndex(educationCursor, |educationHistory|)
      ensures r.(educationCursor := educationCursor) == this
      ensures Valid() ==> r.Valid()
    {
      this.(educationCursor := NextIndex(educationCursor, |educationHistory|))
    }

    function PreviousEducator(): (r: Nav)
      ensures r.educationCursor == PreviousIndex(educationCursor)
      ensures r.(educationCursor := educationCursor) == this
      ensures Valid() ==> r.Valid()
    {
      this.(educationCursor := PreviousIndex(educationCursor))
    }

    function ToggleEmploymentOrEducation(): (r: Nav)
      ensures r.active != active
      ensures r.(active := active) == this
    {
      this.(active := Toggled(active))
    }
  }

  /** The state the viewer starts in: the About Me tab, both cursors on the
      first (most recent) entry, and the employment list active. */
  const DefaultNav := Nav(AboutMe, 0, [Kraken, Mpb, Socius], 0, [UosPhd, UosMphys], Employment)

  lemma DefaultValid()
    ensures DefaultNav.Valid()
    ensures DefaultNav.tab == AboutMe && DefaultNav.active == Employment
    ensures DefaultNav.employmentCursor == 0 && DefaultNav.educationCursor == 0
  {
  }

  /** Toggling twice restores the state. */
  lemma ToggleTwice(s: Nav)
    ensures s.ToggleEmploymentOrEducation().ToggleEmploymentOrEducation() == s
  {
    ToggledInvolution(s.active, s.active);
  }

  class State {
    var selectedTab: TabsHeading
    var selectedEmploymentEntry: nat
    var employmentHistory: seq<EmploymentEntry>
    var selectedEducationEntry: nat
    var educationHistory: seq<EducationEntry>
    var employmentOrEducation: EmploymentEducation

    function Model(): Nav
      reads this
    {
      Nav(selectedTab, selectedEmploymentEntry, employmentHistory,
          selectedEducationEntry, educationHistory, employmentOrEducation)
    }

    constructor Default()
      ensures Model() == DefaultNav
    {
      selectedTab := AboutMe;
      selectedEmploymentEntry := 0;
      employmentHistory := [Kraken, Mpb, Socius];
      selectedEducationEntry := 0;
      educationHistory := [UosPhd, UosMphys];
      employmentOrEducation := Employment;
    }

    /** A state given field by field, as the struct literal builds one. */
    constructor (tab: TabsHeading, employmentCursor: nat, employments: seq<EmploymentEntry>,
                 educationCursor: nat, educations: seq<EducationEntry>, active: EmploymentEducation)
      ensures Model() == Nav(tab, employmentCursor, employments, educationCursor, educations, active)
    {
      selectedTab := tab;
      selectedEmploymentEntry := employmentCursor;
      employmentHistory := employments;
      selectedEducationEntry := educationCursor;
      educationHistory := educations;
      employmentOrEducation := active;
    }

    method SetSelectedTab(tab: TabsHeading)
      modifies this
      ensures Model() == old(Model()).SetSelectedTab(tab)
    {
      selectedTab := tab;
    }

    method NextEmployer()
      requires |employmentHistory| > 0
      modifies this
      ensures Model() == old(Model()).NextEmployer()
    {
      if selectedEmploymentEntry != |employmentHistory| - 1 {
        selectedEmploymentEntry := selectedEmploymentEntry + 1;
      }
    }

    method PreviousEmployer()
      modifies this
      ensures Model() == old(Model()).PreviousEmployer()
    {
      if selectedEmploymentEntry != 0 {
        selectedEmploymentEntry := selectedEmploymentEntry - 1;
      }
    }

    method NextEducator()
      requires |educationHistory| > 0
      modifies this
      ensures Model() == old(Model()).NextEducator()
    {
      if selectedEducationEntry != |educationHistory| - 1 {
        selectedEducationEntry := selectedEducationEntry + 1;
      }
    }

    method PreviousEducator()
      modifies this
      ensures Model() == old(Model()).PreviousEducator()
    {
      if selectedEducationEntry != 0 {
        selectedEducationEntry := selectedEducationEntry - 1;
      }
    }

    method ToggleEmploymentOrEducation()
      modifies this
      ensures Model() == old(Model()).ToggleEmploymentOrEducation()
    {
      employmentOrEducation := Toggled(employmentOrEducation);
    }
  }

  /** The unit tests of the state, replayed against the contracts alone. */
  method StateTests()
  {
    var state := new State.Default();
    state.SetSelectedTab(EmploymentAndEducation);
    assert state.selectedTab == EmploymentAndEducation;

    state := new State.Default();
    state.PreviousEmployer();
    assert state.selectedEmploymentEntry == 0;
    state.NextEmployer();
    assert state.selectedEmploymentEntry == 1;
    state.PreviousEmployer();
    assert state.selectedEmploymentEntry == 0;

    state := new State(AboutMe, 1, [Kraken, Mpb], 1, [UosPhd, UosMphys], Employment);
    state.NextEmployer();
    assert state.selectedEmploymentEntry == 1;
    state.PreviousEmployer();
    assert state.selectedEmploymentEntry == 0;
    state.NextEducator();
    assert state.selectedEducationEntry == 1;
    state.PreviousEducator();
    assert state.selectedEducationEntry == 0;

    state := new State.Default();
    state.PreviousEducator();
    assert state.selectedEducationEntry == 0;
    state.NextEducator();
    assert state.selectedEducationEntry == 1;
    state.PreviousEducator();
    assert state.selectedEducationEntry == 0;

    state := new State.Default();
    state.ToggleEmploymentOrEducation();
    assert state.employmentOrEducation == Education;
    state.ToggleEmploymentOrEducation();
    assert state.employmentOrEducation == Employment;
  }
}
