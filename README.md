# resume-rs navigation core, in Dafny

A model of the navigation state machine of `resume-rs`, a terminal résumé viewer with
three tabs: About Me, Contact Details, and Employment & Education. The model covers:

- the mutable `State`: selected tab, a cursor into each history list, and which list
  is active;
- the key dispatcher that updates it;
- the event catalogue and the keybinding legend built from it;
- the text of list items, the star marker and the emphasis of the active list;
- the description panel, the tab titles and the fixed-width loading text.

Each source file is one module:

| file | module | form |
|---|---|---|
| src/state.rs | `Navigation` (state.dfy) | class `State` with mutating methods; its value `Nav` with the same operations as functions |
| src/keymap.rs | `Keymap` (keymap.dfy) | methods `GlobalKeyMap`/`EmploymentKeymap` on a `State`, proved against the transition function `Dispatch` |
| src/events.rs | `Events` (events.dfy) | datatype and two total functions |
| src/ui/keymap.rs | `KeymapView` (keymap_view.dfy) | `StyleKeybind`, and a method that pushes the legend events and folds them into a line |
| src/employment.rs | `EmploymentRecords` (employment.dfy) | record datatypes with `Representation` |
| src/ui/employment.rs | `EmploymentView` (employment_view.dfy) | item lists as functions; list builders as methods that set a `ListState` |
| src/ui/tabs.rs | `Tabs` (tabs.dfy) | functions |
| src/ui/loading.rs | `LoadingView` (loading.dfy) | one function |

`Text` (text.dfy) holds string helpers: repetition, counting, concatenation and splitting
on newlines. `Scenarios` (scenarios.dfy) chains key presses through the dispatcher and
then composes the combined tab.

The mutators clamp and never wrap. `State.NextEmployer` and `State.NextEducator` require a
non-empty list, because the source computes `len() - 1` on `usize`. The dispatcher requires
only what that demands: a Ctrl-n on the combined tab needs a non-empty active list. Every
other key is total.

Three details of the code shape the model:

- `State` has no scroll mutators and no timed tick, so neither is modelled.
- The catalogue advertises `j`/`k` (src/events.rs:44-47), while the dispatcher moves cursors
  with Ctrl-n/Ctrl-p (src/keymap.rs:22-23). Each is modelled as written, and no lemma claims
  they agree.
- The event loop intercepts `'q'` before the dispatcher runs (src/main.rs:81-84). This is
  modelled by `Keymap.HandleKey`.

## Model

| member | source | states |
|---|---|---|
| Tabs.Index | src/ui/tabs.rs:18-24 | a tab's position is below the exit entry's, so it always indexes a real tab title |
| Tabs.IndexInjective | src/ui/tabs.rs:18-24 | two tabs have the same index iff they are the same tab |
| Tabs.Title | src/ui/tabs.rs:26-32 | every tab title ends with ')' |
| Tabs.Titles | src/ui/tabs.rs:36-41 | the tab bar has four titles, the last being "Exit (q)", each at least three characters long |
| Tabs.TitleAtIndex | src/ui/tabs.rs:36-41 | the titles array has 4 entries, ends with "Exit (q)", and holds each tab's title at that tab's index |
| Tabs.TitleKeysDistinct | src/ui/tabs.rs:26-32 | every title ends in "(x)" with a lower-case letter x, and the letters of different tabs differ |
| EmploymentRecords.Prefix | src/employment.rs:17-20 | the prefix has 3 characters: spaces around a middle character that is '*' iff selected |
| EmploymentRecords.ItemText | src/employment.rs:21-24 | an item is 16 characters longer than its four fields together |
| EmploymentRecords.EmploymentEntry.Representation | src/employment.rs:15-25 | an employment item has that length, and its marker is '*' iff selected and ' ' otherwise |
| EmploymentRecords.EducationEntry.Representation | src/employment.rs:28-38 | an education item has that length, and its marker is '*' iff selected and ' ' otherwise |
| EmploymentRecords.ItemsDifferOnlyAtMarker | src/employment.rs:16-25 | selected and unselected items have equal length and differ at exactly one position, the marker ('*' against ' ') |
| EmploymentRecords.ItemLines | src/employment.rs:21-24 | with newline-free fields, an item splits into exactly the lines "   heading", prefix + body, "   start - end" and " " |
| EmploymentRecords.Toggled | src/state.rs:55-60 | toggling always yields the other list |
| EmploymentRecords.ToggledInvolution | src/employment.rs:41-45 | toggling twice is the identity; the enum has only the value and its toggle |
| Events.Description | src/events.rs:21-36 | every event's legend label is non-empty |
| Events.KeyBinding | src/events.rs:38-53 | every advertised binding is a single key or a control chord written "C-x" |
| Events.AllEvents | src/events.rs:2-18 | the catalogue lists 12 pairwise-distinct events |
| Events.EveryEventListed | src/events.rs:2-18 | every event appears in the catalogue list |
| Events.BindingsInVariantOrder | src/events.rs:38-53 | in variant order, the bindings are q, a, c, e, j, k, j, k, C-o, C-o, C-n, C-p |
| Events.DescriptionsDistinct | src/events.rs:21-36 | two events have the same label iff they are the same event |
| Events.BindingsShared | src/events.rs:44-49 | the two next moves share "j", the two previous moves share "k", the two selections share "C-o", and no other distinct pair shares a binding |
| Events.GlobalBindingsDistinct | src/events.rs:40-43 | quit and the three tab switches have distinct one-character bindings |
| Navigation.NextIndex | src/state.rs:31-35 | below the last index the cursor advances by exactly one; at the last index it stays; a cursor in range stays in range |
| Navigation.PreviousIndex | src/state.rs:37-41 | above 0 the cursor goes back by exactly one; at 0 it stays at 0; it never increases |
| Navigation.NextThenPrevious | src/state.rs:91-99 | next then previous restores a cursor below the last index; previous then next restores a positive cursor |
| Navigation.NextIndexSaturates | src/state.rs:31-35 | k next moves from a cursor in range land at min(cursor + k, len - 1) |
| Navigation.PreviousIndexSaturates | src/state.rs:37-41 | k previous moves land at max(cursor - k, 0), so the cursor never drops below 0 |
| Navigation.WalkToEitherEnd | src/state.rs:101-131 | len - 1 next moves from 0 reach the last entry and one more stays there; the same holds for previous moves from the last entry down to 0 |
| Navigation.Nav.SetSelectedTab | src/state.rs:27-29 | the tab becomes t and no other field changes |
| Navigation.Nav.NextEmployer | src/state.rs:31-35 | only the employment cursor changes, to NextIndex over the employment list; validity is preserved |
| Navigation.Nav.PreviousEmployer | src/state.rs:37-41 | only the employment cursor changes, to PreviousIndex; validity is preserved |
| Navigation.Nav.NextEducator | src/state.rs:43-47 | only the education cursor changes, to NextIndex over the education list; validity is preserved |
| Navigation.Nav.PreviousEducator | src/state.rs:49-53 | only the education cursor changes, to PreviousIndex; validity is preserved |
| Navigation.Nav.ToggleEmploymentOrEducation | src/state.rs:55-60 | the active list changes to the other one and nothing else changes |
| Navigation.DefaultValid | src/state.rs:16-25 | the default state is on About Me, has both cursors at 0 and Employment active, and both cursors index a record |
| Navigation.ToggleTwice | src/state.rs:191-208 | toggling twice restores the whole state |
| Navigation.StateTests | src/state.rs:67-208 | the unit tests of the state, replayed through the object's methods; each test's assertion follows from the methods' contracts alone |
| Navigation.State.Default | src/state.rs:16-25 | the new object's value is the default state |
| Navigation.State.constructor | src/state.rs:103-110 | the new object holds the given fields |
| Navigation.State.SetSelectedTab | src/state.rs:27-29 | the object's new value is the old value with the tab set |
| Navigation.State.NextEmployer | src/state.rs:31-35 | on a non-empty list, the object's new value is the old value after Nav.NextEmployer |
| Navigation.State.PreviousEmployer | src/state.rs:37-41 | the object's new value is the old value after Nav.PreviousEmployer |
| Navigation.State.NextEducator | src/state.rs:43-47 | on a non-empty list, the object's new value is the old value after Nav.NextEducator |
| Navigation.State.PreviousEducator | src/state.rs:49-53 | the object's new value is the old value after Nav.PreviousEducator |
| Navigation.State.ToggleEmploymentOrEducation | src/state.rs:55-60 | the object's new value is the old value with the active list toggled |
| Keymap.TabStep | src/keymap.rs:6-11 | the tab-switch step changes at most the tab, and a key other than 'e', 'a' and 'c' leaves the state unchanged |
| Keymap.UnrecognisedKeys | src/keymap.rs:10-38 | a key that is neither 'e', 'a', 'c' nor exactly Ctrl-n, Ctrl-p or Ctrl-o can always be dispatched and changes nothing, on every tab |
| Keymap.EmploymentDispatch | src/keymap.rs:19-39 | the combined tab's step keeps the tab and both histories, and keeps the active list unless the key is Ctrl-o |
| Keymap.Dispatch | src/keymap.rs:5-17 | dispatching any key keeps both histories |
| Keymap.GlobalKeyMap | src/keymap.rs:5-17 | the state afterwards is Dispatch of the state before and the key |
| Keymap.EmploymentKeymap | src/keymap.rs:19-39 | the state afterwards is EmploymentDispatch: the active list's cursor move, then the toggle |
| Keymap.HandleKey | src/main.rs:81-84 | the result is quit iff the key is 'q'; on quit the state is untouched, otherwise it is dispatched |
| Keymap.SwitchKeys | src/keymap.rs:6-11 | 'e', 'a' and 'c' select the combined tab, About Me and Contact Details from any tab, whatever the modifiers, and change nothing else |
| Keymap.OutsideCombinedTab | src/keymap.rs:13-16 | when the tab after the switch step is not the combined tab, only the tab can change |
| Keymap.EmploymentCursorKeys | src/keymap.rs:21-25 | on the combined tab with Employment active, Ctrl-p is PreviousEmployer on any list, and Ctrl-n is NextEmployer on a non-empty list |
| Keymap.EducationCursorKeys | src/keymap.rs:26-30 | on the combined tab with Education active, Ctrl-p is PreviousEducator on any list, and Ctrl-n is NextEducator on a non-empty list |
| Keymap.ToggleKey | src/keymap.rs:33-37 | Ctrl-o toggles the active list on the combined tab and changes nothing on other tabs |
| Keymap.ModifiersMustBeExactlyControl | src/keymap.rs:21-37 | 'n', 'p' and 'o' with any modifier set other than exactly Control change nothing |
| Keymap.DispatchStep | src/keymap.rs:19-39 | one key never changes the histories, never both toggles and moves a cursor, and never moves both cursors |
| Keymap.DispatchPreservesValid | src/keymap.rs:5-39 | from a valid state every key can be dispatched and both cursors stay in range |
| Keymap.TitleNamesItsKey | src/keymap.rs:7-9 | pressing the letter in parentheses of a tab's title selects that tab |
| KeymapView.StyleKeybind | src/ui/keymap.rs:11-24 | a segment is six characters longer than its binding and label together |
| KeymapView.StyleKeybindParts | src/ui/keymap.rs:11-24 | a segment is " <", the binding, ": ", the label and "> ", at fixed offsets |
| KeymapView.LineStartsWithBase | src/ui/keymap.rs:27-32 | a legend whose events begin with the four base events begins with their segments |
| KeymapView.CollectLine | src/ui/keymap.rs:50-53 | the line is the in-order concatenation of the events' segments |
| KeymapView.RenderKeymap | src/ui/keymap.rs:26-53 | the events always begin Quit, SwitchToAboutMe, SwitchToContactInformation, SwitchToEmployment and number 4 or 7. Off the combined tab they are exactly those four. Otherwise the three entries of the active list follow, in order. The line is their concatenated segments and begins with the base segments |
| EmploymentView.EmploymentItems | src/ui/employment.rs:13-26 | the employment list has one item per employment record |
| EmploymentView.EducationItems | src/ui/employment.rs:48-61 | the education list has one item per education record |
| EmploymentView.ItemsInOrder | src/ui/employment.rs:13-61 | item i of each list is record i's own representation, in record order: starred at the starred position and plain everywhere else |
| EmploymentView.StarredEmploymentExact | src/ui/employment.rs:13-26 | the starred employment items are exactly the cursor's item when Employment is active and the cursor is in range, and none otherwise |
| EmploymentView.StarredEducationExact | src/ui/employment.rs:48-61 | the same rule for the education list, the education cursor and Education active |
| EmploymentView.AtMostOneStar | src/ui/employment.rs:20-21 | across both lists at most one item is starred, exactly one in a valid state, and none in the inactive list |
| EmploymentView.ExactlyOneEmphasised | src/ui/employment.rs:29-41 | exactly one block has the emphasised border and the highlight style, namely the active one |
| EmploymentView.EmploymentList | src/ui/employment.rs:28-43 | the employment widget carries the employment items and the "Employment" title, with emphasised border and highlight both iff Employment is active |
| EmploymentView.EducationList | src/ui/employment.rs:63-78 | the education widget carries the education items and the "Education" title, with emphasised border and highlight both iff Education is active |
| EmploymentView.ListState.constructor | src/ui/employment.rs:208-211 | a fresh list state selects nothing |
| EmploymentView.ListState.Select | src/ui/employment.rs:12 | the list state's selection becomes the given index |
| EmploymentView.EmploymentBlock | src/ui/employment.rs:11-44 | the list state selects the employment cursor, and the widget has one item per entry, the "Employment" title and emphasis iff Employment is active |
| EmploymentView.EducationBlock | src/ui/employment.rs:46-79 | the list state selects the education cursor, and the widget has one item per entry, the "Education" title and emphasis iff Education is active |
| EmploymentView.TitleText | src/ui/employment.rs:100-106 | a panel title is five characters longer than its four fields together |
| EmploymentView.SoftwareText | src/ui/employment.rs:107-112 | the software paragraph is 52 characters longer than its three fields together |
| EmploymentView.SoftwareLines | src/ui/employment.rs:107-112 | with newline-free fields, the software paragraph splits into an empty line, "Software Stack", and the Backend, Frontend and Infrastructre lines with their fields |
| EmploymentView.TitleLines | src/ui/employment.rs:100-106 | with newline-free fields, a panel title splits into exactly heading, body and "start - end" |
| EmploymentView.EmploymentEntryAt | src/ui/employment.rs:98 | the employment record under the cursor is present exactly when the cursor is in range, and it is one of the employment records |
| EmploymentView.EducationEntryAt | src/ui/employment.rs:150 | the education record under the cursor is present exactly when the cursor is in range, and it is one of the education records |
| EmploymentView.DescriptionBlock | src/ui/employment.rs:81-85 | the panel shows the employment record under the cursor when Employment is active and the education record otherwise |
| EmploymentView.RenderEmployment | src/ui/employment.rs:179-218 | the combined tab shows its heading, both lists with their cursors selected, and the description panel |
| LoadingView.LoadingText | src/ui/loading.rs:11-15 | for dot counts up to 3, the text is 10 characters long: "Loading", then dotCount dots, then spaces |
| LoadingView.LoadingDots | src/ui/loading.rs:13 | the text holds exactly dotCount '.' characters |
| LoadingView.LoadingWidthConstant | src/ui/loading.rs:11-15 | all phases of the animation have the same width |
| Scenarios.DefaultToThirdEmployer | src/keymap.rs:5-39 | from the default state, 'e' then Ctrl-n twice reaches cursor 2; only the third employer is starred and its record is in the description panel |
| Scenarios.SecondOfThree | src/ui/employment.rs:13-26 | with three employers and the cursor at 1, only the second item is starred and its record is shown |
| Scenarios.Session | src/main.rs:81-84 | a session through `HandleKey`: 'e', Ctrl-n three times (clamped at the third employer), Ctrl-o, Ctrl-n on the education list, then 'q', which quits and leaves the state as it was; each step follows from the contracts alone |
| Scenarios.EmptyActiveList | src/ui/employment.rs:81-85 | in the model, an empty active list gives no star and no description panel; the missing panel follows from the model's cursor lookup, since the source has no guard here and its builders read the entry unconditionally |

## Left out

- Terminal handling is not modelled: raw mode, the alternate screen, mouse capture and cursor restoration (src/main.rs). These are I/O outside the core.
- The tokio runtime, `event::poll`/`event::read` and the frame loop are not modelled. Only the loop's handling of one key is kept (`HandleKey`).
- Loading records from S3 or from files is not modelled (`load_*_from_s3`, src/ui/about_me.rs). Its code is not part of this model, and the records arrive as values.
- `update_dot_count`, `is_loading` and `about_me_scroll_offset` are used by the source but not declared in the `State` shown. The dot count is a parameter of `LoadingText`, and no update rule is invented for it.
- About Me scrolling is not modelled. The state has no scroll mutators, and the dispatcher has no scroll keys. `ScrollAboutMeTextDown`/`ScrollAboutMeTextUp` exist only in the catalogue.
- `get_employment_entry`/`get_education_entry` are not shown. The model's `EmploymentView.EmploymentEntryAt` and `EmploymentView.EducationEntryAt` look up the entry under the cursor, and `DescriptionBlock` yields no panel when the cursor has no entry. The code shown has no path that skips the panel: `description_block` (src/ui/employment.rs:81-85) has no guard, and the builders read the entry unconditionally (src/ui/employment.rs:98-106 and 150-158). The `None` result is the model's choice for a case the code shown does not handle.
- The `description` and `software` fields are read by src/ui/employment.rs:109-123, and an education record's `description` by src/ui/employment.rs:169, but not declared on the records. The description and software stack of the shown record are parameters of `DescriptionBlock`.
- Tui layout arithmetic, colours, styles and `render_widget` are not modelled. Nor are the tab bar's and list's drawing, apart from titles, item texts, emphasis flags and the selected index. These belong to the widget library.
- src/ui/banner.rs, src/ui/contact_details.rs and src/settings.rs are not modelled. They hold constant widgets and configuration.
- Cursors are unbounded `nat`, without a `usize` width. `next_employer` and `next_educator` advance any cursor other than `len - 1` (src/state.rs:32-33 and 44-45), including one already past the end, which the struct literal of src/state.rs:103-110 can build. Such a cursor advances without bound (`NextIndex(5, 3) == 6`), and the `usize` overflow at `usize::MAX` is not modelled.
- LoadingView.LoadingText: requires `dotCount <= 3`. Larger dot counts are excluded because `3 - dot_count` (src/ui/loading.rs:14) would underflow in unsigned arithmetic.
- Navigation.State.NextEmployer: requires a non-empty list. On an empty list the source's `len() - 1` on `usize` underflows: a debug build panics, and a release build wraps to `usize::MAX`, so the cursor advances. The model does not describe either behaviour.
- Navigation.State.NextEducator: requires a non-empty list, for the same reason.
