/** The keybinding legend at the bottom of the screen (src/ui/keymap.rs): an
    ordered list of events chosen by tab and active list, each formatted as
    " <binding: label> " and concatenated. */
module KeymapView {
  import opened Tabs
  import opened EmploymentRecords
  import opened Events
  import opened Text

  /** One legend segment. */
  function StyleKeybind(e: Event): (r: string)
    ensures |r| == |KeyBinding(e)| + |Description(e)| + 6
  {
    " <" + KeyBinding(e) + ": " + Description(e) + "> "
  }

  /** A segment reads back as its parts: the binding sits between " <" and
      ": ", the label between ": " and "> ". */
  lemma StyleKeybindParts(e: Event)
    ensures var r, b := StyleKeybind(e), |KeyBinding(e)|;
      && |r| == b + |Description(e)| + 6
      && r[..2] == " <" && r[|r| - 2..] == "> "
      && r[2..2 + b] == KeyBinding(e)
      && r[2 + b..4 + b] == ": "
      && r[4 + b..|r| - 2] == Description(e)
  {
  }

  /** The segment of each event, in order. */
  function Segments(events: seq<Event>): seq<string>
  {
    seq(|events|, i requires 0 <= i < |events| => StyleKeybind(events[i]))
  }

  lemma SegmentsAppend(a: seq<Event>, b: seq<Event>)
    ensures Segments(a + b) == Segments(a) + Segments(b)
  {
  }

  /** The legend entries present on every tab. */
  function BaseEvents(): seq<Event>
  {
    [Quit, SwitchToAboutMe, SwitchToContactInformation, SwitchToEmployment]
  }

  /** A legend whose events begin with the base four begins with their
      segments. */
  lemma LineStartsWithBase(events: seq<Event>)
    requires |events| >= 4 && events[..4] == BaseEvents()
    ensures var base, line := Concat(Segments(BaseEvents())), Concat(Segments(events));
      |base| <= |line| && line[..|base|] == base
  {
    assert events == BaseEvents() + events[4..];
    SegmentsAppend(BaseEvents(), events[4..]);
    ConcatAppend(Segments(BaseEvents()), Segments(events[4..]));
  }

  /** The segments of `events` collected into one line. */
  method CollectLine(events: seq<Event>) returns (line: string)
    ensures line == Concat(Segments(events))
  {
    line := "";
    var i := 0;
    while i < |events|
      invariant 0 <= i <= |events|
      invariant line == Concat(Segments(events)[..i])
    {
      assert Segments(events)[..i + 1][..i] == Segments(events)[..i];
      line := line + StyleKeybind(events[i]);
      i := i + 1;
    }
    assert Segments(events)[..i] == Segments(events);
  }

  /** The legend events and the legend line for a tab and an active list. */
  method RenderKeymap(tab: TabsHeading, active: EmploymentEducation) returns (events: seq<Event>, line: string)
    ensures |events| == 4 || |events| == 7
    ensures events[..4] == BaseEvents()
    ensures tab != EmploymentAndEducation ==> events == BaseEvents()
    ensures tab == EmploymentAndEducation && active == Employment ==>
      events == BaseEvents() + [SelectEducation, NextEmployer, PreviousEmployer]
    ensures tab == EmploymentAndEducation && active == Education ==>
      events == BaseEvents() + [SelectEmployment, NextEducation, PreviousEducation]
    ensures line == Concat(Segments(events))
    ensures var base := Concat(Segments(BaseEvents())); |base| <= |line| && line[..|base|] == base
  {
    events := [Quit, SwitchToAboutMe, SwitchToContactInformation, SwitchToEmployment];
    match tab {
      case EmploymentAndEducation =>
        match active {
          case Employment =>
            events := events + [SelectEducation];
            events := events + [NextEmployer];
            events := events + [PreviousEmployer];
          case Education =>
            events := events + [SelectEmployment];
            events := events + [NextEducation];
            events := events + [PreviousEducation];
        }
      case _ =>
    }
    line := CollectLine(events);
    LineStartsWithBase(events);
  }
}
