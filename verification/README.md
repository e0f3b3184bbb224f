# Portfolio site UI rules, modelled in Dafny

The portfolio site is a set of React components. Once the animation, DOM
and timer plumbing is stripped away, six of them hold small pieces of pure
logic. This project states that logic as Dafny functions and state machines
and proves properties about it:

- **Project catalog** (`components/projects-catalog.tsx`):
  - the case-insensitive search combined with the category tab;
  - regrouping of the results by category, and the "All" tab's group headings;
  - the card footer's label priority and what the detail modal shows;
  - the modal's open/close/clear-selection state machine;
  - the seventeen catalog entries.
- **Master Quests** (`components/projects-section.tsx`):
  - the Fisher–Yates shuffle;
  - the expand/collapse state machine and its modal;
  - the first-sentence summary, category names and date fallback;
  - the six quest entries.
- **Skills** (`components/skills-section.tsx`): `sanitizeClassName`, the skill data, the tab slugs and the `data-width` strings.
- **Loading screen** (`components/loading-screen.tsx`):
  - the three capped progress phases;
  - completion, hiding and rendering;
  - the status label.
- **Contact form** (`components/contact-section.tsx`): field updates, the browser's `required`/`type="email"` gate before submission, the submit/complete/clear cycle and the message box.
- **Music button** (`components/music-player.tsx`): the load gate, play/pause with a play that may be rejected, the element pausing or resuming on its own, and the button's labels.

Conventions:

- JavaScript values:
  - optional fields are `Option` values;
  - JavaScript truthiness of an optional string means "present and non-empty" (`JsValues.Truthy`);
  - `a || b` on strings is `JsValues.OrElse`;
  - `toLowerCase` is ASCII lower-casing.
- Inputs for things the model cannot compute:
  - each result of `Math.random()` is an input draw in [0, 1);
  - the outcome of `audio.play()` is an input of the button press;
  - whether the email field holds a syntactically valid address is an input of the submit press.
- Timers: each `setTimeout`/`setInterval` callback is an event. A counter of pending timers makes sure a callback only fires after it has been scheduled. Events may arrive in any order, so the model covers more interleavings than real timing allows.
- Progress is an exact `real`.

Modules:

| module | file |
|---|---|
| `JsValues` | js_values.dfy |
| `Text` | text.dfy |
| `Seqs` | seqs.dfy |
| `ProjectsCatalog` | catalog.dfy |
| `CatalogData` | catalog_data.dfy |
| `CatalogModal` | catalog_modal.dfy |
| `FisherYates` | shuffle.dfy |
| `QuestList` | quests.dfy |
| `QuestData` | quest_data.dfy |
| `Slugs` | skills.dfy |
| `SkillData` | skill_data.dfy |
| `LoadingScreen` | loading.dfy |
| `ContactForm` | contact.dfy |
| `MusicPlayer` | music.dfy |

## Model

| member | source | states |
|---|---|---|
| JsValues.OrElse | components/projects-catalog.tsx:637 | `a \|\| b` yields the optional string when it is present and non-empty, otherwise the fallback; a non-empty fallback never yields "" |
| Text.ContainsIffOccurs | components/projects-catalog.tsx:476-477 | the scanning `includes` holds exactly when the term occurs at some index of the text |
| Text.Lower | components/projects-catalog.tsx:476-477 | `toLowerCase`, ASCII only: same length, no upper-case letter left, every other character kept, and a character is a lower-case letter or digit afterwards iff it was a letter or digit before |
| Text.LowerIdempotent | components/skills-section.tsx:95 | lower-casing leaves no upper-case letter, so lower-casing again changes nothing |
| Text.BeforeFirst | components/projects-section.tsx:279 | `split(sep)[0]` is a prefix without `sep`, followed in the text by `sep` unless it is the whole text |
| Text.IntToStringRoundTrip | components/skills-section.tsx:283 | the decimal rendering of an integer in a template string reads back to the same integer |
| Seqs.Filter | components/projects-catalog.tsx:474-480 | `filter` keeps the elements that pass the test, in order, as a subsequence, each as often as it occurs in the input, and drops every other element; when all pass it returns the input |
| Seqs.FilterFilter | components/projects-catalog.tsx:482-484 | filtering an already filtered list equals one filter by both tests |
| ProjectsCatalog.TagInjective | components/projects-catalog.tsx:35 | the five category tags are pairwise distinct |
| ProjectsCatalog.FilteredProjects | components/projects-catalog.tsx:474-480 | the shown projects are an order-preserving subsequence of the catalog; a project is shown iff it matches the lower-cased search and the active tab, as many times as it occurs in the catalog |
| ProjectsCatalog.EmptySearchShowsAll | components/projects-catalog.tsx:474-480 | an empty search on the "all" tab shows the whole catalog in order |
| ProjectsCatalog.MatchesSearchIffOccurs | components/projects-catalog.tsx:475-477 | a project matches the search iff the lowered term occurs in its lowered name or description |
| ProjectsCatalog.ProjectsByCategory | components/projects-catalog.tsx:482-484 | "all" returns the filtered list unchanged; a tag returns exactly the filtered projects of that tag, in order and with their multiplicities |
| ProjectsCatalog.CategoryListsExclusive | components/projects-catalog.tsx:482-484 | every filtered project is in its own category's list and in no other |
| ProjectsCatalog.CategoryListsAddUp | components/projects-catalog.tsx:482-484 | the five category lists together are as long as the filtered list, so with exclusivity they partition it |
| ProjectsCatalog.AllTabGroups | components/projects-catalog.tsx:556-568 | the "All" tab draws a category group iff that category's list is non-empty; each group lists exactly that category's projects |
| ProjectsCatalog.EveryCategoryListed | components/projects-catalog.tsx:386-392 | `categoryLabels` has a key for each of the five categories |
| ProjectsCatalog.AllTabCountsAddUp | components/projects-catalog.tsx:563-565 | the counts printed on the group headings add up to the number of filtered projects |
| ProjectsCatalog.TabAgreesWithAllGroup | components/projects-catalog.tsx:598-606 | a category tab shows the same projects, in the same order, as that category's group on the "All" tab |
| ProjectsCatalog.CardFooter | components/projects-catalog.tsx:906-929 | exactly one footer label, chosen in order: paper title, restricted, GitHub source URL, plain source text |
| ProjectsCatalog.CardBodyOf | components/projects-catalog.tsx:879-902 | the card shows the project's own performance statistics iff it has them, otherwise the project's description |
| ProjectsCatalog.ModalContent | components/projects-catalog.tsx:630-803 | detail image and long description fall back to image and description; paper block iff paper title; source block iff neither paper title nor restriction; access block iff restricted; at most one source link |
| ProjectsCatalog.FooterAgreesWithModal | components/projects-catalog.tsx:740-803 | a card's footer and its modal agree in both directions (paper, restricted, GitHub link, plain source) |
| CatalogData.CatalogIdsDistinct | components/projects-catalog.tsx:58-384 | no two catalog entries share an id |
| CatalogData.BadgesNeverOverlap | components/projects-catalog.tsx:859-873 | no entry has both a paper badge and a "Connect to view" badge, which share a corner |
| CatalogData.CatalogFooters | components/projects-catalog.tsx:58-384 | "Research Paper" footers are exactly the research entries, "Restricted Access" exactly the three restricted ones, and Horcrux shows "Source: User-provided" |
| CatalogModal.OpenProjectModal | components/projects-catalog.tsx:460-463 | opening selects the project and opens the modal, which is then rendered |
| CatalogModal.CloseProjectModal | components/projects-catalog.tsx:465-468 | closing hides the modal at once, keeps the selection and schedules one clear |
| CatalogModal.ClearSelectionAsWritten | components/projects-catalog.tsx:467 | the delayed clear drops the selection whatever happened since it was scheduled |
| CatalogModal.ClearSelection | components/projects-catalog.tsx:467 | the intended clear drops the selection only of a still-closed modal and keeps scroll lock and modal in step |
| CatalogModal.RunKeepsConsistent | components/projects-catalog.tsx:448-468 | with the intended clear, the page scroll is locked only while a modal is on screen, after any events |
| CatalogModal.ReopenWithinClearDelayLocksPage | components/projects-catalog.tsx:465-468 | as written, open, close, reopen within 300 ms, then the timer: the scroll stays locked with no modal drawn |
| CatalogModal.ReopenWithinClearDelayShowsProject | components/projects-catalog.tsx:465-468 | with the intended clear, the same events leave the second project on screen |
| FisherYates.SwapIndex | components/projects-section.tsx:195 | `floor(random() * (i + 1))` lies in [0, i] |
| FisherYates.Shuffle | components/projects-section.tsx:192-198 | the shuffle returns a permutation of its input: same length, same multiset, each output position holding a distinct input position |
| QuestList.ShuffleProjects | components/projects-section.tsx:192-201 | shuffling permutes the quests, keeps ids distinct, and leaves nothing expanded with the modal closed |
| QuestList.Initial | components/projects-section.tsx:99-101 | the section starts with nothing expanded and the modal closed |
| QuestList.ToggleCardExpansion | components/projects-section.tsx:177-185 | toggling the expanded id collapses it and closes the modal; any other id is expanded and opens it; `isModalOpen` iff a card is expanded |
| QuestList.CloseModal | components/projects-section.tsx:187-190 | closing clears the expanded card and the modal flag |
| QuestList.ToggleTwiceCloses | components/projects-section.tsx:177-185 | clicking the same card twice from any other state ends with the modal closed |
| QuestList.FindById | components/projects-section.tsx:229-231 | `find` returns a quest with the id iff one exists |
| QuestList.FindByIdUnique | components/projects-section.tsx:229-231 | with distinct ids, the quest found for an id is the one carrying it |
| QuestList.ExpandedProject | components/projects-section.tsx:229-231 | the expanded project is a quest of the list whose id is the expanded id; it is present iff a card is expanded and some quest carries that id |
| QuestList.ClickShowsQuest | components/projects-section.tsx:260 | clicking a quest's card, when it is not already expanded, makes it the expanded project |
| QuestList.CategoryName | components/projects-section.tsx:216-227 | the three known tags get their first letter capitalised; any other string is returned unchanged |
| QuestList.DateText | components/projects-section.tsx:281 | the card shows the date when present and non-empty, otherwise "Ongoing" |
| QuestList.Summary | components/projects-section.tsx:279 | the summary ends in its only full stop; it is a prefix of the description when the description has a full stop, otherwise the description plus "." |
| QuestList.CardOf | components/projects-section.tsx:260-284 | a card shows its quest's title, the image or the placeholder, the capitalised known category, a one-sentence summary ending in the only full stop that is a prefix of the description, and the date or "Ongoing" |
| QuestList.ModalContent | components/projects-section.tsx:291-340 | the modal content is drawn iff the modal is open, the expanded id is non-empty and names a quest; it shows that quest's image, title, category name, description and technologies, with its date only when present |
| QuestList.CardAgreesWithModal | components/projects-section.tsx:260-333 | a card and the modal it opens show the same title and category name, the card's summary starts the modal's description, and the card's date is the modal's or "Ongoing" |
| QuestList.ClickOpensModal | components/projects-section.tsx:260-296 | clicking a card with a non-empty id brings up that quest's modal content |
| QuestData.QuestsWellFormed | components/projects-section.tsx:26-93 | the six quest ids are distinct and non-empty and every category is one of the three known tags |
| QuestData.DatedIffResearch | components/projects-section.tsx:26-93 | exactly the research quests carry a date; the others show "Ongoing" |
| QuestData.EveryCardOpensItsQuest | components/projects-section.tsx:260-296 | from the first render, clicking any quest's card opens the modal on that quest |
| Slugs.CollapseDashes | components/skills-section.tsx:97 | collapsing dash runs leaves no `--`, keeps the first character, uses only input characters and never lengthens |
| Slugs.CollapseIsDropRepeatedDashes | components/skills-section.tsx:97 | the collapse equals a character-by-character reference that keeps every character except a dash directly after a dash |
| Slugs.CollapseNoDoubleDash | components/skills-section.tsx:97-98 | a string without `--` is unchanged by the collapse |
| Slugs.SecondCollapseIsNoOp | components/skills-section.tsx:97-98 | the second `replace(/-+/g, "-")` changes nothing |
| Slugs.CollapseKeepsLetters | components/skills-section.tsx:97 | collapsing keeps the non-dash characters and their order |
| Slugs.DashKeepsAlnum | components/skills-section.tsx:96 | after dashing, the non-dash characters are exactly the `[a-z0-9]` characters of the input |
| Slugs.SanitizeClassName | components/skills-section.tsx:93-99 | a slug uses only `[a-z0-9-]`, has no `--`, is no longer than the name, and starts with the lowered first letter of a name that starts with one |
| Slugs.SlugLetters | components/skills-section.tsx:94-96 | deleting the dashes of a slug leaves exactly the lowered letters and digits of the name, in order |
| Slugs.SanitizeIdempotent | components/skills-section.tsx:93-99 | sanitizing a slug again returns it unchanged |
| SkillData.SkillLevelsInRange | components/skills-section.tsx:26-84 | every skill level lies in 0..100, as documented at line 17 |
| SkillData.TabClass | components/skills-section.tsx:265 | a tab's class is `tab-` followed by a slug over `[a-z0-9-]` without `--` whose non-dash characters are the lowered letters and digits of the name |
| SkillData.TabClassIffSameSlug | components/skills-section.tsx:265 | two tabs share a class exactly when their names share a slug |
| SkillData.SlugsStartWithHeads | components/skills-section.tsx:26-84 | each category slug starts with the lowered first letter of its name |
| SkillData.TabSlugsDistinct | components/skills-section.tsx:183-186 | the six category names have pairwise distinct slugs |
| SkillData.SelectorMatchesOneTab | components/skills-section.tsx:186-189 | the `.tab-<slug>` selector of a category matches that category's tab content and no other |
| SkillData.DataWidth | components/skills-section.tsx:283 | `data-width` ends in `%`, and the text before it is decimal digits after an optional minus sign that read back as the level |
| SkillData.DataWidthOfPercentage | components/skills-section.tsx:283 | a level in 0..100 gives an unsigned width of one to three digits |
| LoadingScreen.Increment | components/loading-screen.tsx:18 | the three increments lie in [2, 10), [1, 6) and [0.5, 3.5) |
| LoadingScreen.PhaseStep | components/loading-screen.tsx:17-25 | a tick never exceeds its cap, returns the cap exactly when the sum reaches it, strictly increases progress below the cap, and snaps progress above the cap down to it |
| LoadingScreen.RunPhase | components/loading-screen.tsx:16-26 | a phase running alone only clears at its cap and, from at or below the cap, never lowers progress |
| LoadingScreen.PhaseClearsWithin | components/loading-screen.tsx:16-58 | a phase within k minimal increments of its cap clears within k ticks, whatever the draws |
| LoadingScreen.QuickPhaseWithin15Ticks | components/loading-screen.tsx:16-26 | the quick phase goes from 0 to 30 in at most 15 ticks |
| LoadingScreen.MediumPhaseWithin40Ticks | components/loading-screen.tsx:30-43 | the medium phase goes from 30 to 70 in at most 40 ticks |
| LoadingScreen.FinalPhaseWithin60Ticks | components/loading-screen.tsx:46-60 | the final phase goes from 70 to 100 in at most 60 ticks |
| LoadingScreen.TickPhase | components/loading-screen.tsx:46-60 | only a running phase ticks; it clears when progress hits its cap; only the final phase completes, exactly when it reaches 100 |
| LoadingScreen.RunKeepsInv | components/loading-screen.tsx:7-77 | after any events, progress stays in [0, 100], `isComplete` iff the final phase cleared, and hidden implies complete |
| LoadingScreen.ReachableInv | components/loading-screen.tsx:7-77 | every state reachable from mount satisfies the invariant |
| LoadingScreen.CompletionOnlyByFinalTick | components/loading-screen.tsx:51-54 | `isComplete` is only set by a final-phase tick that returns 100 |
| LoadingScreen.HidingNeedsCompletion | components/loading-screen.tsx:68-77 | `isVisible` only turns false through the fade timeout of a completed load |
| LoadingScreen.OverlapSnapsDown | components/loading-screen.tsx:20-23 | a phase ticking while progress is above its cap pulls progress down to the cap |
| LoadingScreen.CompletionAfterEarlierPhasesStays | components/loading-screen.tsx:46-58 | once all three phases have cleared at 100, progress stays at 100 |
| LoadingScreen.FadeNeverDrawn | components/loading-screen.tsx:80-86 | as written, no reachable state draws the `opacity-0` screen: hidden and not rendered coincide |
| LoadingScreen.FadeDrawnIntended | components/loading-screen.tsx:68-86 | under the intended rule, the fade timeout leaves the faded screen drawn until the transition ends |
| LoadingScreen.StatusLabel | components/loading-screen.tsx:141-147 | each of the four labels is shown exactly on its progress range: below 30, 30 to 70, 70 to 100, and from 100 |
| LoadingScreen.StatusLabelByStage | components/loading-screen.tsx:141-147 | the label is the one for the number of thresholds 30, 70, 100 that progress has reached |
| LoadingScreen.StageMonotone | components/loading-screen.tsx:141-147 | more progress never gives an earlier stage |
| LoadingScreen.TickNeverRegressesLabel | components/loading-screen.tsx:17-25 | a tick at or below its cap never moves the label backwards |
| ContactForm.InputChange | components/contact-section.tsx:29-32 | an input change sets exactly the named field and leaves the other two fields and the rest of the state unchanged |
| ContactForm.FieldKeysDistinct | components/contact-section.tsx:169-201 | the three inputs have distinct `name` keys |
| ContactForm.Submit | components/contact-section.tsx:34-36 | submitting sets `isSubmitting`, which disables the button, and keeps the fields |
| ContactForm.Complete | components/contact-section.tsx:39-45 | completion clears `isSubmitting`, shows the success message, empties all three fields and schedules the clear |
| ContactForm.ClearMessage | components/contact-section.tsx:48-50 | the delayed clear removes the message and leaves the fields untouched |
| ContactForm.RunKeepsInv | components/contact-section.tsx:21-52 | at most one submission is in flight, exactly while submitting; any shown message is the success message |
| ContactForm.NoErrorMessageReachable | components/contact-section.tsx:27-44 | no reachable state shows an `"error"` message |
| ContactForm.SubmitCycle | components/contact-section.tsx:34-52 | from an idle, filled-in form with a valid email, submit, completion and clear go submitting, success with empty fields, then idle with no message |
| ContactForm.InvalidFormSubmitIgnored | components/contact-section.tsx:163-208 | a press on a form with an empty field or a malformed email changes nothing |
| ContactForm.SubmitStartsIffValid | components/contact-section.tsx:163-224 | a press starts a submission exactly when the button is enabled, every field is filled in and the email is valid |
| ContactForm.NoResubmitOfEmptiedForm | components/contact-section.tsx:45 | after completion the emptied form cannot be sent again until it is filled in |
| ContactForm.SubmitWhileSubmittingIgnored | components/contact-section.tsx:224 | a press on the disabled button changes nothing |
| ContactForm.MessageClass | components/contact-section.tsx:212-220 | the message box is green exactly for a success message |
| MusicPlayer.CanPlayThrough | components/music-player.tsx:23-28 | `canplaythrough` sets `isLoaded` while the listener is attached and changes nothing else |
| MusicPlayer.ToggleAudio | components/music-player.tsx:40-61 | without audio or before loading nothing changes; playing pauses; otherwise `isPlaying` becomes true iff `play()` resolves |
| MusicPlayer.Unmount | components/music-player.tsx:31-37 | cleanup pauses the element, detaches the listener and drops the element |
| MusicPlayer.OutsidePause | components/music-player.tsx:22-27 | an outside pause stops the element and leaves `isPlaying` as it was, since no `pause` listener is registered |
| MusicPlayer.OutsidePlay | components/music-player.tsx:22-27 | an outside resume starts the element and leaves `isPlaying` as it was, since no `play` listener is registered |
| MusicPlayer.RunKeepsInv | components/music-player.tsx:9-61 | after any events, including outside pauses and resumes, the button says "Pause music" only once the audio has loaded, and the listener is only attached to a live element |
| MusicPlayer.ReachableInv | components/music-player.tsx:9-61 | every state reachable from mount satisfies the invariant |
| MusicPlayer.RunKeepsInSync | components/music-player.tsx:40-61 | without outside pauses or resumes, the element plays exactly while `isPlaying` holds |
| MusicPlayer.OutsidePauseDesyncs | components/music-player.tsx:22-61 | after an outside pause the button says "Pause music" over a silent element; one press resets it to "Play music" and a second plays again |
| MusicPlayer.OutsidePlayDesyncs | components/music-player.tsx:22-61 | after an outside resume the button offers "Play music" over a sounding element; a press whose play resolves brings the two back in step |
| MusicPlayer.LoadedStaysLoaded | components/music-player.tsx:10-28 | no event resets `isLoaded` |
| MusicPlayer.OnlyCanPlayLoads | components/music-player.tsx:23-28 | only `canplaythrough` sets `isLoaded` |
| MusicPlayer.PressesBeforeLoadIgnored | components/music-player.tsx:41 | presses before loading change nothing |
| MusicPlayer.RejectedPlayKeepsStopped | components/music-player.tsx:51-54 | a rejected play leaves `isPlaying` false |
| MusicPlayer.View | components/music-player.tsx:73-85 | the button is disabled iff not loaded; label, tooltip and pulse say "pause" iff playing |
| MusicPlayer.EnabledIffTogglable | components/music-player.tsx:41 | while mounted, the button is enabled exactly when a press passes the gate |

## Left out

- Animations are not modelled: GSAP and ScrollTrigger timelines, parallax, particles, hover tilt, debounced scroll handlers and `getBoundingClientRect` checks. They are animation-library and DOM calls with no state the rules depend on.
- Icons, `Image`/`Link`/`Tabs` rendering and CSS classes are left out, except the classes the rules depend on (tab slugs, the message colour, the loading screen's opacity).
- Card hover state (`hoveredCardId`) and the search box's `onChange` are left out. Each just stores its input.
- The hostname fallback `new URL(sourceUrl).hostname` for non-GitHub links is left out. `OtherLink` keeps the optional domain instead of parsing URLs.
- `Math.round` of the displayed percentage is left out. Floating-point rounding is outside the exact-real model.
- Unicode `toLowerCase` is left out. Only ASCII letters are lower-cased.
- Text.IntToStringRoundTrip: JavaScript numbers are modelled as unbounded integers. A template literal renders integers of magnitude 10^21 or more in exponent form ("1e+21"), which this rendering does not model.
- SkillData.DataWidth: skill levels are modelled as integers. A non-integer level would render with a fraction, and a level of magnitude 10^21 or more in exponent form. The data's levels all lie in 0..100 (`SkillLevelsInRange`).
- The browser's grammar for email addresses is left out. Whether the email field holds a valid address is an input of each submit press.
- Real-time ordering of timers is left out. Events may arrive in any order, which covers every real schedule and more.
- LoadingScreen.RunKeepsInv: the invariant does not say that progress is 100 once `isComplete` holds. In the untimed model a medium tick arriving after completion snaps progress back to 70. Real timing rules that out, because the medium phase clears within 300 ms of progress passing 69, long before the final phase can reach 100. `CompletionAfterEarlierPhasesStays` states the case where the earlier phases have finished.
- MusicPlayer.ToggleAudio: `play()` settles within the press. Presses made while a play promise is still pending are not modelled.
- `setIsComplete(true)` is called from inside a state updater. React's double invocation of updaters in strict mode is not modelled.
- Three quests in the source have no `type`, although the type declares it required. `Quest.kind` is therefore optional.
- In app/page.tsx:61, `LoadingScreen` is passed an `onLoadingComplete` prop that it never accepts, so `handleLoadingComplete` (app/page.tsx:50-57) never runs. The page wrapper is not modelled.
- The page unmounts the loading screen on its own timer: 1000 ms after the five images preload (app/page.tsx:38-44), whatever the screen's progress. The unmount clears the intervals started so far (components/loading-screen.tsx:63-65). The final phase starts 2000 ms after mount (components/loading-screen.tsx:46-59) and needs at least 9 ticks of 200 ms from 70, so completion and the fade in this model are reached only when preloading takes more than about 2.8 s. The model covers the screen on its own, not that race.
- The "View Full Details" button of the quest modal is left out. It only logs to the console.
- Other components (header, hero, about, experience, footer, audio context, layout, lazy sections) are left out. They hold static markup, a menu toggle or Web Audio gain ramps.

## Findings

| source | as written | input that shows it | evidently intended | confidence | as-written member | corrected member |
|---|---|---|---|---|---|---|
| components/projects-catalog.tsx:465-468 | `closeProjectModal` schedules `setSelectedProject(null)` after 300 ms without checking whether a project was opened in the meantime | open project p, close, open project q within 300 ms, then the timer fires: `isModalOpen` is true and nothing is selected, so no modal is drawn but the page scroll stays locked | clear the selection only if the modal is still closed | not executed; follows from the cited lines | CatalogModal.ReopenWithinClearDelayLocksPage | CatalogModal.ReopenWithinClearDelayShowsProject |
| components/loading-screen.tsx:68-86 | the component returns `null` as soon as `isVisible` is false, and `isVisible` is only false once `isComplete` holds, so the `opacity-0` class with its 1000 ms transition is never drawn | any load that completes: when the 500 ms timeout fires the screen disappears at once instead of fading | keep drawing the hidden screen until the opacity transition ends, then remove it | not executed; follows from the cited lines | LoadingScreen.FadeNeverDrawn | LoadingScreen.FadeDrawnIntended |
