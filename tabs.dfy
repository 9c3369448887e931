/** The three top-level tabs, their position in the tab bar and their titles
    (src/ui/tabs.rs). */
module Tabs {

  datatype TabsHeading = AboutMe | ContactDetails | EmploymentAndEducation

  /** Position of a tab in the tab bar. */
  function Index(t: TabsHeading): (r: nat)
    ensures r < |Titles()| - 1
  {
    match t
    case AboutMe => 0
    case ContactDetails => 1
    case EmploymentAndEducation => 2
  }

  /** The tab's title; the letter in parentheses names its key. */
  function Title(t: TabsHeading): (r: string)
    ensures |r| >= 3 && r[|r| - 1] == ')'
  {
    match t
    case AboutMe => "About Me (a)"
    case ContactDetails => "Contact Details (c)"
    case EmploymentAndEducation => "Employment and Education (e)"
  }

  /** The tab-bar titles `render_tabs` draws: the three tabs in index order, then
      the exit entry. */
  function Titles(): (r: seq<string>)
    ensures |r| == 4 && r[3] == "Exit (q)"
    ensures forall i :: 0 <= i < |r| ==> |r[i]| >= 3
  {
    [Title(AboutMe), Title(ContactDetails), Title(EmploymentAndEducation), "Exit (q)"]
  }

  lemma IndexInjective(a: TabsHeading, b: TabsHeading)
    ensures Index(a) == Index(b) <==> a == b
  {
  }

  /** The tab bar highlights the title of the selected tab, and the exit entry
      is last and never selected. */
  lemma TitleAtIndex(t: TabsHeading)
    ensures |Titles()| == 4 && Titles()[3] == "Exit (q)"
    ensures Titles()[Index(t)] == Title(t)
  {
  }

  /** The character inside the final parentheses of a title. */
  function TitleKey(title: string): (r: char)
    requires |title| >= 3
    ensures r in title
  {
    title[|title| - 2]
  }

  /** Every title ends with "(x)" for one lower-case letter x, and the letters
      are distinct. */
  lemma TitleKeysDistinct(a: TabsHeading, b: TabsHeading)
    ensures |Title(a)| >= 3 && Title(a)[|Title(a)| - 3] == '(' && Title(a)[|Title(a)| - 1] == ')'
    ensures 'a' <= TitleKey(Title(a)) <= 'z'
    ensures TitleKey(Title(a)) == TitleKey(Title(b)) <==> a == b
  {
  }
}
