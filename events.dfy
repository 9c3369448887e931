/** The catalogue of navigable actions: a label and an advertised key binding
    for each (src/events.rs). */
module Events {

  datatype Event =
    | Quit
    | SwitchToAboutMe
    | SwitchToContactInformation
    | SwitchToEmployment
    | NextEmployer
    | PreviousEmployer
    | NextEducation
    | PreviousEducation
    | SelectEducation
    | SelectEmployment
    | ScrollAboutMeTextDown
    | ScrollAboutMeTextUp

  /** The legend label; never empty. */
  function Description(e: Event): (r: string)
    ensures |r| > 0
  {
    match e
    case Quit => "quit"
    case SwitchToAboutMe => "about me"
    case SwitchToContactInformation => "contact"
    case SwitchToEmployment => "employment"
    case NextEmployer => "next employer"
    case PreviousEmployer => "previous employer"
    case NextEducation => "next education"
    case PreviousEducation => "previous education"
    case SelectEducation => "select education"
    case SelectEmployment => "select employment"
    case ScrollAboutMeTextDown => "scroll down"
    case ScrollAboutMeTextUp => "scroll up"
  }

  /** The advertised binding: a single key, or a control chord written "C-x". */
  function KeyBinding(e: Event): (r: string)
    ensures |r| == 1 || (|r| == 3 && r[..2] == "C-")
  {
    match e
    case Quit => "q"
    case SwitchToAboutMe => "a"
    case SwitchToContactInformation => "c"
    case SwitchToEmployment => "e"
    case NextEmployer => "j"
    case PreviousEmployer => "k"
    case NextEducation => "j"
    case PreviousEducation => "k"
    case SelectEducation => "C-o"
    case SelectEmployment => "C-o"
    case ScrollAboutMeTextDown => "C-n"
    case ScrollAboutMeTextUp => "C-p"
  }

  /** Every event once, in declaration order. */
  function AllEvents(): (r: seq<Event>)
    ensures |r| == 12
    ensures forall i, j :: 0 <= i < j < |r| ==> r[i] != r[j]
  {
    [Quit, SwitchToAboutMe, SwitchToContactInformation, SwitchToEmployment,
     NextEmployer, PreviousEmployer, NextEducation, PreviousEducation,
     SelectEducation, SelectEmployment, ScrollAboutMeTextDown, ScrollAboutMeTextUp]
  }

  /** The catalogue list is complete. */
  lemma EveryEventListed(e: Event)
    ensures e in AllEvents()
  {
    match e
    case Quit => assert AllEvents()[0] == e;
    case SwitchToAboutMe => assert AllEvents()[1] == e;
    case SwitchToContactInformation => assert AllEvents()[2] == e;
    case SwitchToEmployment => assert AllEvents()[3] == e;
    case NextEmployer => assert AllEvents()[4] == e;
    case PreviousEmployer => assert AllEvents()[5] == e;
    case NextEducation => assert AllEvents()[6] == e;
    case PreviousEducation => assert AllEvents()[7] == e;
    case SelectEducation => assert AllEvents()[8] == e;
    case SelectEmployment => assert AllEvents()[9] == e;
    case ScrollAboutMeTextDown => assert AllEvents()[10] == e;
    case ScrollAboutMeTextUp => assert AllEvents()[11] == e;
  }

  /** The advertised bindings, in variant order. */
  lemma BindingsInVariantOrder()
    ensures seq(12, i requires 0 <= i < 12 => KeyBinding(AllEvents()[i]))
         == ["q", "a", "c", "e", "j", "k", "j", "k", "C-o", "C-o", "C-n", "C-p"]
  {
  }

  /** No two events share a label. */
  lemma DescriptionsDistinct(a: Event, b: Event)
    ensures Description(a) == Description(b) <==> a == b
  {
  }

  /** Exactly three pairs of events share a binding: the two "next" moves, the
      two "previous" moves and the two list selections. */
  lemma BindingsShared(a: Event, b: Event)
    ensures KeyBinding(NextEmployer) == KeyBinding(NextEducation) == "j"
    ensures KeyBinding(PreviousEmployer) == KeyBinding(PreviousEducation) == "k"
    ensures KeyBinding(SelectEducation) == KeyBinding(SelectEmployment) == "C-o"
    ensures a != b && KeyBinding(a) == KeyBinding(b) ==>
      {a, b} == {NextEmployer, NextEducation} || {a, b} == {PreviousEmployer, PreviousEducation}
      || {a, b} == {SelectEducation, SelectEmployment}
  {
  }

  /** Quit and the three tab switches are bound to distinct single characters. */
  lemma GlobalBindingsDistinct(a: Event, b: Event)
    requires a in [Quit, SwitchToAboutMe, SwitchToContactInformation, SwitchToEmployment]
    requires b in [Quit, SwitchToAboutMe, SwitchToContactInformation, SwitchToEmployment]
    ensures |KeyBinding(a)| == 1
    ensures KeyBinding(a) == KeyBinding(b) <==> a == b
  {
  }
}
