# Portfolio site — a Dafny model

This project models the interactive core of a single-page portfolio site.
The site is a React application whose content lives in the browser's
local storage:

- an admin panel lets a logged-in owner edit six lists and the profile,
  and saves them to local storage under fixed keys;
- the public sections read those keys when they mount, fall back to
  built-in defaults, and render them (projects, hero, timeline, skills,
  contact);
- a demo chat answers with canned replies typed out character by
  character;
- a language switcher toggles between English and Spanish;
- a lint rule in the ESLint configuration rejects imports of icons that
  the `lucide-react` package does not export, and suggests the closest
  names by Levenshtein distance.

The model has one module per source file, plus shared modules:

| module | models |
|---|---|
| `AdminPanel` | `src/components/AdminPanel.tsx` |
| `Projects` | `src/components/ProjectsSection.tsx` |
| `Chat` | `src/components/AIChatDemo.tsx` |
| `Hero` | `src/components/HeroSection.tsx` |
| `Timeline` | `src/components/ProjectTimeline.tsx` |
| `Skills` | `src/components/SkillsSection.tsx` |
| `Contact` | `src/components/ContactSection.tsx` |
| `Language` | `src/components/LanguageSwitcher.tsx` |
| `IconLint` | `eslint.config.js` |
| `Common` | shared: `||` on strings, missing profile fields, `Array.prototype.filter` |
| `Text` | shared: the JavaScript string built-ins the core uses (`trim`, `toLowerCase`, `replace`, `join`) |
| `Browser` | shared: local storage and dispatched window events |
| `Entities` | shared: the stored records and the id-keyed list updates |
| `Display` | shared: technology badges and intersection-observer visibility |

Component state that React updates in place becomes a `class` whose
methods carry `modifies` clauses:

- local storage and its window events: `Browser.Window`;
- the admin panel (login, profile, loading): `AdminPanel.Panel`;
- each admin list: `AdminPanel.Collection`;
- the technology tag input of the project and timeline forms:
  `AdminPanel.TechListEditor`;
- the projects section (list, category, hovered card):
  `Projects.ProjectsSection`;
- the typing chat: `Chat.ChatDemo`;
- the typewriter heading: `Hero.Typewriter`;
- the timeline (list, visible and selected cards): `Timeline.TimelineSection`;
- the skills section (lists and visible bars): `Skills.SkillsSection`;
- the contact form: `Contact.ContactFormState`;
- the language button and its toasts: `Language.LanguageSwitcher`;
- the lint rule's icon cache: `IconLint.IconRegistry`.

What the sections compute from that state (filters, merges, cards, links)
is written as functions with lemmas.

`JSON.stringify`/`JSON.parse` are modelled as a `Codec`: a pair of
functions whose decode may fail. Lemmas that read back what was written
assume the round trip `decode(encode(x)) == Some(x)`; this is the
`RoundTrips` predicate.

## Model

| member | source | states |
|---|---|---|
| Common.Field | src/components/AdminPanel.tsx:684-695 | a profile field that is absent reads as the empty string, a present one as its value |
| Common.Or | src/components/HeroSection.tsx:36-41 | `a \|\| b` on strings: `a` when it is non-empty, `b` otherwise |
| Common.Filter | src/components/AdminPanel.tsx:273 | the result is never longer than the list; every kept element is in the list and passes the test, and every element that passes is kept |
| Common.FilterMembers | src/components/AdminPanel.tsx:273 | an element is in the filtered list exactly when it is in the list and passes the test |
| Common.FilterConcat | src/components/AdminPanel.tsx:273 | filtering distributes over concatenation |
| Common.FilterKeepsAll | src/components/AdminPanel.tsx:273 | when every element passes, the filter returns the list unchanged |
| Common.FilterDropsAll | src/components/AdminPanel.tsx:273 | when no element passes, the filter returns the empty list |
| Common.FilterIdempotent | src/components/AdminPanel.tsx:273 | filtering twice with the same test is filtering once |
| Common.FilterPartition | src/components/ProjectsSection.tsx:104-105 | filtering by a test and by its negation splits the list: the two multisets add up to the list's, and so do the lengths |
| Text.TrimStart | src/components/AIChatDemo.tsx:108 | drops exactly the leading whitespace: the result is a suffix, everything removed is whitespace, and the result does not start with whitespace |
| Text.TrimEnd | src/components/AIChatDemo.tsx:108 | drops exactly the trailing whitespace: the result is a prefix, everything removed is whitespace, and the result does not end with whitespace |
| Text.Trim | src/components/AIChatDemo.tsx:113 | the result is a piece of the input that neither starts nor ends with whitespace, and everything cut away before and after it is whitespace |
| Text.CutFromBothEnds | src/components/AIChatDemo.tsx:113 | cutting leading and then trailing whitespace leaves a piece with whitespace on both sides of it and none at its ends |
| Text.TrimEmptyIff | src/components/AIChatDemo.tsx:108 | a string trims to empty exactly when every character is whitespace |
| Text.TrimIdempotent | src/components/AdminPanel.tsx:893-896 | trimming a trimmed string changes nothing |
| Text.LowerChar | eslint.config.js:56 | the result is never an upper-case ASCII letter, and a character that is not one is unchanged |
| Text.ToLower | eslint.config.js:56 | same length, and each character is lower-cased on its own |
| Text.ToLowerIdempotent | eslint.config.js:56 | lower-casing twice is lower-casing once |
| Text.IndexFrom | src/components/ContactSection.tsx:133 | the first occurrence of the pattern at or after a position, or none when no such occurrence exists |
| Text.IndexOf | src/components/ContactSection.tsx:133 | the first occurrence of the pattern, or none when there is none |
| Text.ReplaceFirst | src/components/ContactSection.tsx:133 | `replace(pattern, rep)` with a string pattern: unchanged when the pattern does not occur; a leading pattern is swapped for the replacement |
| Text.ReplaceOnlyFirst | src/components/ContactSection.tsx:133 | only the first occurrence is replaced, and the text around it is kept |
| Text.Join | eslint.config.js:62 | joining nothing gives ""; otherwise the text starts with the first element |
| Browser.GetItem | src/components/ProjectsSection.tsx:58 | `getItem` returns a value exactly when the key is stored, and then the stored value |
| Browser.LoadOrDefaults | src/components/ProjectsSection.tsx:57-67 | nothing stored (or an empty string) keeps the current value; a stored value that does not parse gives the defaults; one that parses gives the parsed value |
| Browser.LoadAfterWrite | src/components/ProjectsSection.tsx:57-67 | reading back a value the codec wrote gives that value |
| Browser.ParseOr | src/components/AdminPanel.tsx:132-137 | `saved ? JSON.parse(saved) : empty`: the empty value when nothing is saved, otherwise the parse result, which may fail |
| Browser.MergeSaved | src/components/HeroSection.tsx:24-33 | without a saved profile, or when it does not parse, nothing changes. Otherwise the keys are the earlier ones plus the saved ones; saved fields override and the others keep their earlier values |
| Browser.Window.constructor | src/components/AdminPanel.tsx:92-94 | the window starts with the given storage and no dispatched events |
| Browser.Window.SetItem | src/components/AdminPanel.tsx:263 | storage maps the key to the value, and no event is dispatched |
| Browser.Window.RemoveItem | src/components/AdminPanel.tsx:172 | storage loses the key, and no event is dispatched |
| Browser.Window.DispatchEvent | src/components/AdminPanel.tsx:266 | the event is appended, and storage is unchanged |
| Entities.Ids | src/components/AdminPanel.tsx:256 | the ids of a list, position by position |
| Entities.ReplaceById | src/components/AdminPanel.tsx:256 | same length; entries with the edited id become the new record and all others are unchanged |
| Entities.RemoveById | src/components/AdminPanel.tsx:273 | `filter(p => p.id !== id)`: every remaining entry was in the list and has another id, every entry with another id remains; the id is gone and the list does not grow |
| Entities.RemoveByIdConcat | src/components/AdminPanel.tsx:273 | deleting from a concatenation deletes from each part |
| Entities.RemoveAbsentId | src/components/AdminPanel.tsx:273 | deleting an id the list does not hold changes nothing |
| Entities.RemoveTwice | src/components/AdminPanel.tsx:273 | deleting the same id twice is deleting it once |
| Entities.RemoveAfterAppend | src/components/AdminPanel.tsx:248-281 | creating an entry with a new id and then deleting it gives back the list |
| Entities.RemoveKeepsUnique | src/components/AdminPanel.tsx:273 | deletion keeps ids unique |
| Entities.ReplaceKeepsUnique | src/components/AdminPanel.tsx:250-256 | an edit keeps ids unique and, when the id is kept, keeps the id list |
| Entities.AppendKeepsUnique | src/components/AdminPanel.tsx:250-259 | appending a record with a fresh id keeps ids unique |
| Entities.SavedId | src/components/AdminPanel.tsx:252 | `editing?.id \|\| fresh`: the edited entry's id when it has one, the fresh id otherwise |
| Entities.Upsert | src/components/AdminPanel.tsx:250-261 | on edit the list keeps its length and only the edited id's entries change; on create the record with the fresh id is appended |
| Entities.UpsertKeepsUnique | src/components/AdminPanel.tsx:250-261 | a save with a fresh id that no entry holds keeps ids unique |
| Entities.EditThenLookup | src/components/AdminPanel.tsx:250-256 | after editing an entry, its position holds its id with the new data |
| Display.TechBadges | src/components/ProjectsSection.tsx:254-262 | the first three technologies are shown, plus a "+n" badge exactly when there are more than three, where n is the number hidden |
| Display.TechBadgesAccount | src/components/ProjectsSection.tsx:254-262 | the shown badges and the "+n" count together account for every technology |
| Display.IntersectingIds | src/components/ProjectTimeline.tsx:119-127 | the ids of the entries that intersect and carry a non-empty id, and nothing else |
| Display.AccumulateVisible | src/components/ProjectTimeline.tsx:119-127 | the observer callback adds those ids to the visible set and never removes one |
| AdminPanel.Collection.constructor | src/components/AdminPanel.tsx:99-121 | a list starts empty, with no entry edited and the form closed |
| AdminPanel.Collection.StartCreate | src/components/AdminPanel.tsx:482 | the form opens; the list and the entry being edited are unchanged |
| AdminPanel.Collection.StartEdit | src/components/AdminPanel.tsx:494-495 | the chosen entry is being edited and the form opens |
| AdminPanel.Collection.Cancel | src/components/AdminPanel.tsx:507-508 | the form closes and no entry is being edited |
| AdminPanel.Collection.Save | src/components/AdminPanel.tsx:248-269 | the list becomes the upsert of the form data. A successful write stores exactly the new list, closes the form and dispatches the list's update event. A failed write leaves storage, events and the form alone |
| AdminPanel.Collection.Delete | src/components/AdminPanel.tsx:271-281 | the list drops the entries with that id; a successful write stores the new list and dispatches the update event |
| AdminPanel.ParseProfile | src/components/AdminPanel.tsx:134 | `saved ? JSON.parse(saved) : null`: null when nothing is saved, a parse failure when it does not parse, the profile otherwise |
| AdminPanel.MergeProfile | src/components/AdminPanel.tsx:232-238 | the saved profile has the old keys, the form's and "id". The form's fields win; the old fields fill the rest. The old id is kept when set, else a fresh one is used |
| AdminPanel.ProfileFormData | src/components/AdminPanel.tsx:682-696 | the profile form holds exactly its twelve fields, each the profile's value or "" |
| AdminPanel.ResubmitProfileKeepsFields | src/components/AdminPanel.tsx:682-701 | submitting the profile form unchanged keeps every field and the id |
| AdminPanel.Panel.constructor | src/components/AdminPanel.tsx:88-121 | the panel starts closed, with empty lists, and logged in exactly when storage says "true"; new entries get the ids `proj_`, `skill_`, `radar_`, `timeline_` and `cert_` plus the time, and only the projects list announces its changes with `portfolioProjectsUpdated` |
| AdminPanel.Panel.LoadData | src/components/AdminPanel.tsx:124-141 | the content becomes `AfterLoad` of the current storage; login state and, for all five lists, the entry being edited and the form's visibility are unchanged |
| AdminPanel.Panel.Mount | src/components/AdminPanel.tsx:144-148 | the content is loaded exactly when logged in; login state and the five lists' forms are unchanged |
| AdminPanel.Panel.SetCredentials | src/components/AdminPanel.tsx:95 | the typed user and password are stored and nothing else changes |
| AdminPanel.Panel.HandleLogin | src/components/AdminPanel.tsx:151-167 | matching credentials log in: the panel opens, storage records the login, and the content is loaded. Otherwise the error text is set and nothing else changes. Either way the five lists' forms are unchanged |
| AdminPanel.Panel.HandleLogout | src/components/AdminPanel.tsx:170-174 | logged out and closed; the login key is removed from storage |
| AdminPanel.Panel.SaveProfile | src/components/AdminPanel.tsx:232-245 | the profile becomes the merge; a successful write stores exactly it |
| AdminPanel.Panel.AfterLoad | src/components/AdminPanel.tsx:124-141 | the content `loadData` leaves; `AfterLoadStopsAtFirstError` states its property |
| AdminPanel.AfterLoadStopsAtFirstError | src/components/AdminPanel.tsx:124-141 | a parse error stops the load: earlier lists keep their parsed values and later ones keep their old values |
| AdminPanel.LoadAfterSaves | src/components/AdminPanel.tsx:124-141 | storage written by the panel's own saves loads back exactly what was saved |
| AdminPanel.AcceptsTechnology | src/components/AdminPanel.tsx:893 | the input's guard; `WithTechnology` states what it admits |
| AdminPanel.WithTechnology | src/components/AdminPanel.tsx:892-900 | the trimmed input is appended exactly when it is non-empty and new, and distinct tags stay distinct |
| AdminPanel.WithTechnologyIdempotent | src/components/AdminPanel.tsx:892-900 | adding the same input twice is adding it once |
| AdminPanel.WithoutTechnology | src/components/AdminPanel.tsx:902-907 | the removed tag is gone and every other tag stays |
| AdminPanel.DistinctFilter | src/components/AdminPanel.tsx:902-907 | filtering keeps tags distinct |
| AdminPanel.AddThenRemove | src/components/AdminPanel.tsx:892-907 | adding an accepted tag and then removing it gives back the list |
| AdminPanel.TechListEditor.constructor | src/components/AdminPanel.tsx:878-890 | the editor starts with the record's tags and an empty input |
| AdminPanel.TechListEditor.SetInput | src/components/AdminPanel.tsx:890 | the input changes; the tags do not |
| AdminPanel.TechListEditor.AddTechnology | src/components/AdminPanel.tsx:892-900 | the tags become `WithTechnology`; the input is cleared exactly when the tag was accepted |
| AdminPanel.TechListEditor.RemoveTechnology | src/components/AdminPanel.tsx:902-907 | the tags become `WithoutTechnology`; the input stays |
| AdminPanel.InitialProjectForm | src/components/AdminPanel.tsx:878-888 | a new project form has the defaults (category "ML"); an edited project keeps its data and gets "ML" only for an empty category |
| AdminPanel.InitialTimelineForm | src/components/AdminPanel.tsx:1316-1327 | a new timeline form has status "completed"; an edited entry keeps its data and gets "completed" only for an empty status |
| AdminPanel.InitialCertificationForm | src/components/AdminPanel.tsx:1198-1203 | a new certification has empty title and issuer, the current year and the trophy icon; an edited one keeps title and issuer, and its year and icon unless empty, which fall back to the current year and the trophy |
| AdminPanel.InitialSkillFormAsWritten | src/components/AdminPanel.tsx:1079-1084 | as written: a new skill is empty, at 50, "Programming", ⚡; an edited skill keeps its name, a non-zero level, and its category and icon unless empty (then "Programming", ⚡), and `level \|\| 50` turns a saved level 0 into 50 |
| AdminPanel.SkillLevelZeroLost | src/components/AdminPanel.tsx:1081 | a skill saved at level 0 opens in its edit form at level 50 |
| AdminPanel.InitialSkillForm | src/components/AdminPanel.tsx:1079-1084 | corrected: an edited skill keeps its level, including 0, with the same category and icon fallbacks; a new skill starts at 50 |
| AdminPanel.InitialRadarFormAsWritten | src/components/AdminPanel.tsx:1279-1284 | as written: a new radar skill is empty, at 80, colour #00D4FF; an edited one keeps skill, category and a non-zero level, and its colour unless empty (then #00D4FF), and `level \|\| 80` turns a saved level 0 into 80 |
| AdminPanel.RadarLevelZeroLost | src/components/AdminPanel.tsx:1281 | a radar skill saved at level 0 opens in its edit form at level 80 |
| AdminPanel.InitialRadarForm | src/components/AdminPanel.tsx:1279-1284 | corrected: an edited radar skill is kept as it is, level included, except that an empty colour becomes #00D4FF; a new one starts at 80 |
| AdminPanel.SaveSameDataIsNoOp | src/components/AdminPanel.tsx:284-300 | saving an entry's own data back under its id leaves a list with unique ids as it was |
| AdminPanel.SaveUnchangedEditIsNoOp | src/components/AdminPanel.tsx:284-300 | corrected form: opening a skill's form and saving it unchanged leaves the list as it was |
| AdminPanel.SaveUnchangedEditAsWritten | src/components/AdminPanel.tsx:284-300 | as written: saving an opened skill unchanged leaves the list as it was when its level is not 0; a level-0 skill is saved back at 50 |
| Chat.ResponseIndex | src/components/AIChatDemo.tsx:121 | `Math.floor(Math.random() * length)` is always a valid index into the replies |
| Chat.CanSend | src/components/AIChatDemo.tsx:108 | a message is sent exactly when no reply is typing and it holds a character that is not whitespace |
| Chat.SendDisabled | src/components/AIChatDemo.tsx:257 | the send button's `disabled` test; `SendDisabledIff` states its property |
| Chat.SendDisabledIff | src/components/AIChatDemo.tsx:257 | the send button is disabled exactly when sending would be refused: while a reply is typing or when the input is all whitespace |
| Chat.VisibleQuickQuestions | src/components/AIChatDemo.tsx:223-230 | no quick questions while typing; otherwise the first three |
| Chat.WithoutTyping | src/components/AIChatDemo.tsx:73 | the filter keeps exactly the messages that are not typing indicators |
| Chat.WithoutTrailingIndicator | src/components/AIChatDemo.tsx:72-73 | when only the last message is the indicator, the filter removes just it |
| Chat.ChatDemo.constructor | src/components/AIChatDemo.tsx:37-46 | the chat starts with the greeting, an empty input and nothing typing |
| Chat.ChatDemo.SetInput | src/components/AIChatDemo.tsx:249 | the input changes and nothing else |
| Chat.ChatDemo.SendMessage | src/components/AIChatDemo.tsx:107-123 | a blank message or one sent while typing changes nothing. Otherwise the trimmed message and then the typing indicator are appended, the input is cleared, and the chosen reply starts |
| Chat.ChatDemo.TimeoutFired | src/components/AIChatDemo.tsx:72-79 | after the wait the indicator is removed and streaming starts |
| Chat.ChatDemo.Tick | src/components/AIChatDemo.tsx:79-101 | each tick shows one more character of the reply in the last message, the first tick appending it; at the end typing stops |
| Chat.ReplyComplete | src/components/AIChatDemo.tsx:79-101 | when the reply is fully typed, the chat is the earlier messages plus one AI message holding the whole reply |
| Projects.Filtered | src/components/ProjectsSection.tsx:100-102 | "All" shows every project; any other category shows exactly the projects in it |
| Projects.Featured | src/components/ProjectsSection.tsx:104 | exactly the filtered projects that are featured |
| Projects.Others | src/components/ProjectsSection.tsx:105 | exactly the filtered projects that are not featured |
| Projects.FeaturedOthersPartition | src/components/ProjectsSection.tsx:104-105 | the two grids together show every filtered project once |
| Projects.NoResultsIff | src/components/ProjectsSection.tsx:302-306 | the "no results" text shows exactly when no project is in the category, and then both grids are empty |
| Projects.ShowsLink | src/components/ProjectsSection.tsx:161-174 | `url && url !== '#'`; `FeaturedCard` states the buttons it decides |
| Projects.FeaturedCard | src/components/ProjectsSection.tsx:141-201 | the image falls back to a stock photo; hovering shows the long description; the demo and code buttons need a URL other than "" and "#" |
| Projects.CompactCard | src/components/ProjectsSection.tsx:220-280 | the same image and button rules, with the badge list cut to three |
| Projects.ProjectsSection.constructor | src/components/ProjectsSection.tsx:51-67 | the section mounts with the stored list or the defaults, category "All" and nothing hovered |
| Projects.ProjectsSection.LoadProjects | src/components/ProjectsSection.tsx:57-67 | the list becomes the load of the current storage |
| Projects.ProjectsSection.HandleStorageChange | src/components/ProjectsSection.tsx:73-77 | a change to the projects key reloads; any other key changes nothing |
| Projects.ProjectsSection.HandleProjectsUpdate | src/components/ProjectsSection.tsx:82-86 | the admin panel's update event reloads the list |
| Projects.ProjectsSection.SelectCategory | src/components/ProjectsSection.tsx:124-138 | the category changes and nothing else |
| Projects.ProjectsSection.SetHovered | src/components/ProjectsSection.tsx:149-150 | the hovered project changes and nothing else |
| Projects.SectionShowsSavedList | src/components/ProjectsSection.tsx:57-67 | the list the admin panel saved is the list the section shows |
| Projects.RemovedKeyKeepsList | src/components/ProjectsSection.tsx:57-67 | a reload with the key missing (never written; the admin panel never removes it) keeps the list shown |
| Projects.DeleteAllShowsNoResults | src/components/ProjectsSection.tsx:57-67 | after the admin panel deletes every project it stores the empty list, which the section loads: no card in either grid, in every category, so the "no results" text shows |
| Hero.MountedProfile | src/components/HeroSection.tsx:24-33 | the default profile when nothing is saved or it does not parse. Otherwise the keys are the defaults' plus the saved ones; saved fields override and the other defaults stay |
| Hero.Localized | src/components/HeroSection.tsx:36-41 | the field in the current language when it is set, the base field otherwise |
| Hero.CurrentTitle | src/components/HeroSection.tsx:36-38 | `title_es` (Spanish) or `title_en` when set, else `title` |
| Hero.CurrentDescription | src/components/HeroSection.tsx:39-41 | `description_es` or `description_en` when set, else `description` |
| Hero.DefaultTexts | src/components/HeroSection.tsx:9-21 | with nothing saved, both languages show the default title and description |
| Hero.HeroShowsSavedProfile | src/components/HeroSection.tsx:24-41 | a saved profile is merged over the defaults, and its Spanish title is the Spanish heading |
| Hero.LinkIf | src/components/HeroSection.tsx:106 | a link is shown exactly when its URL is set |
| Hero.HeroLinks | src/components/HeroSection.tsx:106-145 | each button shows exactly when its field is set; the e-mail button links to `mailto:` plus the address |
| Hero.DefaultProfileHasNoLinks | src/components/HeroSection.tsx:9-21 | with nothing saved no button shows |
| Hero.Typewriter.constructor | src/components/HeroSection.tsx:43-55 | typing starts from an empty text |
| Hero.Typewriter.Restart | src/components/HeroSection.tsx:43-55 | a new title clears the text and starts over |
| Hero.Typewriter.Tick | src/components/HeroSection.tsx:45-53 | the shown text is always a prefix of the title and grows one character per tick; once complete, the interval stops |
| Timeline.BadgeStyleInjective | src/components/ProjectTimeline.tsx:138-145 | different colours give different badge classes |
| Timeline.Hue | src/components/ProjectTimeline.tsx:138-145 | the badge colour is gray exactly for the statuses other than the three known ones |
| Timeline.StatusColor | src/components/ProjectTimeline.tsx:138-145 | green, yellow and blue badge classes for completed, in-progress and planned; the gray classes for any other status |
| Timeline.StatusIcon | src/components/ProjectTimeline.tsx:147-154 | ✅, 🚧 and 📋 for the three known statuses; ❓ for any other |
| Timeline.StatusBadgesDistinguish | src/components/ProjectTimeline.tsx:138-154 | the three known statuses differ from each other, and from the empty status, in both colour and icon |
| Timeline.UnknownStatusBadge | src/components/ProjectTimeline.tsx:138-154 | every unknown status gets the same badge, which no known status has, in colour and in icon |
| Timeline.IsLeft | src/components/ProjectTimeline.tsx:175 | `index % 2 === 0`: the card's side; `SidesAlternate` states its property |
| Timeline.SidesAlternate | src/components/ProjectTimeline.tsx:175 | cards alternate sides, starting on the left |
| Timeline.ToggleSelection | src/components/ProjectTimeline.tsx:198 | clicking the selected card deselects it; clicking any other selects it |
| Timeline.ToggleTwice | src/components/ProjectTimeline.tsx:198 | two clicks on a card restore the selection |
| Timeline.Card | src/components/ProjectTimeline.tsx:173-277 | side, fade-in, ring and expanded technology list follow index, visibility and selection; the buttons need their URLs |
| Timeline.OneCardExpanded | src/components/ProjectTimeline.tsx:174 | with unique ids, at most one card is expanded |
| Timeline.MountedTimeline | src/components/ProjectTimeline.tsx:106-115 | the defaults when nothing is saved or it does not parse, the saved list when it parses |
| Timeline.IdSet | src/components/ProjectTimeline.tsx:132-133 | the set of ids of a list |
| Timeline.DefaultTimelineIds | src/components/ProjectTimeline.tsx:22-97 | the default entries have ids "1" to "6" |
| Timeline.ObservedAsWritten | src/components/ProjectTimeline.tsx:117-136 | as written, the observer watches only the first render's elements: the default ids, whatever was loaded |
| Timeline.AddedEntryNeverShown | src/components/ProjectTimeline.tsx:117-136 | as written, an entry created in the admin panel, with id `timeline_` followed by any creation time, is never reported and never becomes visible, whatever list was loaded |
| Timeline.Observed | src/components/ProjectTimeline.tsx:117-136 | corrected: the observer watches exactly the loaded entries |
| Timeline.EveryEntryCanBeShown | src/components/ProjectTimeline.tsx:117-136 | corrected: every loaded entry becomes visible when it intersects |
| Timeline.TimelineSection.constructor | src/components/ProjectTimeline.tsx:101-136 | the section mounts with the loaded list, nothing visible and nothing selected; the observer watches the loaded entries, which is the corrected effect (`Observed`), not the program as written (`ObservedAsWritten`) |
| Timeline.TimelineSection.ObserverFired | src/components/ProjectTimeline.tsx:119-127 | the intersecting entries become visible, visible ones stay visible, and the list is unchanged |
| Timeline.TimelineSection.ClickCard | src/components/ProjectTimeline.tsx:198 | the selection toggles and nothing else changes |
| Skills.MountedSkills | src/components/SkillsSection.tsx:63-77 | both lists read back when both parse; a parse error in either gives the defaults of both |
| Skills.BadCertificationsDiscardSkills | src/components/SkillsSection.tsx:63-77 | saved skills that parse are still discarded when the saved certifications do not |
| Skills.SectionShowsSavedSkills | src/components/SkillsSection.tsx:63-77 | lists written with the section's own serializer read back as written, both of them |
| Skills.DataOf | src/components/SkillsSection.tsx:7-26 | the entries' fields without their ids, in order |
| Skills.SectionShowsPanelSkills | src/components/SkillsSection.tsx:63-77 | what the admin panel saved for both lists, with its own serializer of id-carrying entries, is what the section shows, ids dropped, provided the section's parser reads that text as the entries' fields |
| Skills.Group | src/components/SkillsSection.tsx:122-124 | a category card holds exactly the skills of that category |
| Skills.Groups | src/components/SkillsSection.tsx:56-61 | one card per category, in order |
| Skills.SkillShownIff | src/components/SkillsSection.tsx:56-124 | a skill is on a card exactly when its category is one of the four, and then on only one card |
| Skills.ProgressValue | src/components/SkillsSection.tsx:140 | the bar is empty until the skill is seen, then filled to its level |
| Skills.SkillsSection.constructor | src/components/SkillsSection.tsx:51-77 | the section mounts with the loaded lists and no bar filled |
| Skills.SkillsSection.ObserverFired | src/components/SkillsSection.tsx:79-98 | the seen skills grow; a filled bar stays filled |
| Contact.MountedContact | src/components/ContactSection.tsx:37-46 | the default details when nothing is saved or it does not parse. Otherwise the keys are the defaults' plus the saved ones; saved fields override, even when empty, and the other defaults stay |
| Contact.ContactShowsSavedProfile | src/components/ContactSection.tsx:37-46 | the saved profile is merged over the defaults |
| Contact.Handle | src/components/ContactSection.tsx:133 | a profile URL starting with the site's prefix shows the marker plus the rest; a URL without the prefix shows unchanged |
| Contact.HandlesOfProfileUrls | src/components/ContactSection.tsx:133-165 | profile URLs label as `@user` (GitHub, Twitter) and `/in/user` (LinkedIn) |
| Contact.LinkFor | src/components/ContactSection.tsx:121-133 | a link shows exactly when its URL is set, labelled by its handle |
| Contact.Socials | src/components/ContactSection.tsx:121-165 | each social link shows exactly when its URL is set, and links to that URL |
| Contact.DefaultContactHasNoSocials | src/components/ContactSection.tsx:28-35 | with nothing saved, no social link shows |
| Contact.WithField | src/components/ContactSection.tsx:58-63 | the named field takes the value; the others keep theirs |
| Contact.ContactFormState.constructor | src/components/ContactSection.tsx:12-18 | the form starts empty and not submitting |
| Contact.ContactFormState.HandleChange | src/components/ContactSection.tsx:58-63 | the field changes and nothing else |
| Contact.CanSubmit | src/components/ContactSection.tsx:219-271 | the browser submits only a form whose four required inputs are filled, with the button enabled; `ContactFormState.Submit` states its effect |
| Contact.ContactFormState.Submit | src/components/ContactSection.tsx:48-51 | a filled form that is not already submitting starts submitting; otherwise nothing changes |
| Contact.ContactFormState.SubmitFinished | src/components/ContactSection.tsx:52-56 | after the wait the form is cleared and the button enabled |
| Contact.ClearedFormBlocksResubmit | src/components/ContactSection.tsx:216-271 | a cleared form cannot be submitted until it is filled in |
| Language.Toggle | src/components/LanguageSwitcher.tsx:11 | English switches to Spanish; anything else switches to English |
| Language.ToggleInvolution | src/components/LanguageSwitcher.tsx:11 | a click always changes the language, and two clicks restore it |
| Language.ButtonLabel | src/components/LanguageSwitcher.tsx:46 | "ES" in English, "EN" otherwise; `ButtonNamesTarget` states its property |
| Language.Tooltip | src/components/LanguageSwitcher.tsx:42 | "Switch to" and the other language; `ButtonNamesTarget` states its property |
| Language.ToastFor | src/components/LanguageSwitcher.tsx:27-30 | the toast in the new language; `ButtonNamesTarget` and `HandleToggle` state its property |
| Language.ButtonNamesTarget | src/components/LanguageSwitcher.tsx:27-46 | label, tooltip and toast all name the language a click switches to |
| Language.LanguageSwitcher.constructor | src/components/LanguageSwitcher.tsx:7-8 | the switcher starts at the given language with no toast |
| Language.LanguageSwitcher.HandleToggle | src/components/LanguageSwitcher.tsx:10-31 | the language toggles and one toast in the new language is appended |
| IconLint.Min3 | eslint.config.js:47 | the least of three numbers |
| IconLint.FillRow | eslint.config.js:42-48 | one pass of the inner loop fills row i with the edit distances of the prefixes and leaves later rows alone |
| IconLint.PrefixDist | eslint.config.js:35-51 | the edit-distance recurrence on prefixes; the lemmas below state its properties |
| IconLint.Dist | eslint.config.js:35-51 | the Levenshtein distance of two names; `DistZeroIff`, `DistSymmetric`, `DistUpper` and `DistLower` state its properties |
| IconLint.Distance | eslint.config.js:35-51 | the dynamic-programming table computes the Levenshtein distance |
| IconLint.DistEmpty | eslint.config.js:39-40 | the distance to the empty string is the length |
| IconLint.PrefixDistSelf | eslint.config.js:43-45 | a prefix is at distance 0 from itself |
| IconLint.DistSelf | eslint.config.js:35-51 | a name is at distance 0 from itself |
| IconLint.PrefixDistZeroIff | eslint.config.js:35-51 | prefixes are at distance 0 exactly when they are equal |
| IconLint.DistZeroIff | eslint.config.js:35-51 | names are at distance 0 exactly when they are equal |
| IconLint.DistUpper | eslint.config.js:35-51 | the distance is at most the longer length |
| IconLint.DistLower | eslint.config.js:35-51 | the distance is at least the difference in length |
| IconLint.DistSymmetric | eslint.config.js:35-51 | the distance is symmetric |
| IconLint.Score | eslint.config.js:56 | the distance of the lower-cased names; `SuggestionsIgnoreCase` states its property |
| IconLint.ScoreAll | eslint.config.js:53-57 | each icon is paired with its case-insensitive distance to the name |
| IconLint.ScoreIcons | eslint.config.js:53-57 | the loop computes exactly those pairs |
| IconLint.Insert | eslint.config.js:59 | insertion adds exactly the one entry |
| IconLint.SortByScore | eslint.config.js:59 | sorting permutes the entries |
| IconLint.InsertSorted | eslint.config.js:59 | insertion keeps the list sorted by score |
| IconLint.SortSorted | eslint.config.js:59 | the result is sorted by score |
| IconLint.InsertStable | eslint.config.js:59 | insertion keeps the order of entries with equal scores |
| IconLint.SortStable | eslint.config.js:59 | the sort is stable: entries with equal scores keep their order |
| IconLint.ScoredMember | eslint.config.js:53-57 | every scored entry is an icon with its own score |
| IconLint.Ranked | eslint.config.js:53-59 | exactly the icons within the threshold of 3, sorted by score |
| IconLint.RankedScores | eslint.config.js:53-59 | every ranked entry is an icon within the threshold, with its own score |
| IconLint.Suggestions | eslint.config.js:60-61 | the first three ranked icons |
| IconLint.SuggestionsSound | eslint.config.js:53-61 | at most three suggestions, each an icon within the threshold, best first |
| IconLint.SuggestionsComplete | eslint.config.js:53-61 | an icon within the threshold is left out only when three icons at least as close are suggested |
| IconLint.SuggestionsIgnoreCase | eslint.config.js:56 | names differing only in case get the same suggestions |
| IconLint.SuggestionText | eslint.config.js:29-62 | the suggestion text; `SuggestionTextEmptyIff` states its property |
| IconLint.SuggestionTextEmptyIff | eslint.config.js:31-62 | the text is empty exactly when there are no icons or none is within the threshold; otherwise it is "Did you mean: …?" |
| IconLint.ReportsBefore | eslint.config.js:123-133 | in specifier order, exactly the named imports that are not icons are reported, each with its message |
| IconLint.Reports | eslint.config.js:114-134 | the reports of one import; `ReportedIff` states its property |
| IconLint.ReportedIff | eslint.config.js:114-134 | a specifier is reported exactly when the source is lucide-react, the icon list is non-empty and it names a non-icon |
| IconLint.IconRegistry.constructor | eslint.config.js:9-10 | no icons, not loaded |
| IconLint.IconRegistry.LoadIcons | eslint.config.js:12-27 | the first call loads the package's exports, or no icons when it is missing; later calls change nothing |
| IconLint.IconRegistry.SuggestClosestIcon | eslint.config.js:29-63 | loads the icons if needed and returns the suggestion text |
| IconLint.IconRegistry.ImportDeclaration | eslint.config.js:114-134 | other packages are ignored without loading; for lucide-react the icons are loaded and the reports are those of `Reports` |

## Left out

- Markup, CSS classes, animations and scrolling are not modelled. The model keeps only the decisions the markup makes: which card, button, badge or text shows.
- Translations through `t()` are not modelled; the texts are the built-in English ones.
- Toasts and console output are not modelled. The exception is the language switcher's toast list, because its text is the switcher's own output.
- `toLowerCase` is modelled for ASCII letters only. Other Unicode case mappings are not covered.
- `JSON.stringify`/`JSON.parse` are an abstract `Codec`. Profile values are strings only: other JSON values in a saved profile are not modelled.
- The skills section reads skills without ids. Its parser is a codec of the entries' fields; `Skills.ReadsAsData` is what it must do with the admin panel's serialized entries.
- Timeline.TimelineSection: its constructor attaches the observer to the loaded entries, the corrected effect (`Timeline.Observed`). As written, the program observes only the first render's default entries (`Timeline.ObservedAsWritten`), and an entry created in the admin panel never fades in (`Timeline.AddedEntryNeverShown`). The class's visibility reactions therefore describe the corrected program.
- Hero.Typewriter.Tick and Chat.ChatDemo.Tick step over characters, that is code points. JavaScript's `slice` and indexing count UTF-16 code units, so a text with a character outside the Basic Multilingual Plane (an emoji) shows half of it for one tick in the source, which the model does not.
- IconLint.PrefixDist compares characters, that is code points, where the lint rule compares `a[i - 1] === b[j - 1]` on UTF-16 code units. For a name holding a character outside the Basic Multilingual Plane the source's distance can differ from the model's, and with it which icons fall within the threshold of 3.
- Timers are explicit steps:
  - the chat's 1-second wait is `Chat.ChatDemo.TimeoutFired`;
  - its 30 ms interval is `Chat.ChatDemo.Tick`;
  - the typewriter's 100 ms interval is `Hero.Typewriter.Tick`;
  - the contact form's 2-second wait is `Contact.ContactFormState.SubmitFinished`.
- Interleavings of these steps with user input are not modelled beyond the guards the source has.
- `IntersectionObserver` is a sequence of entries with an `isIntersecting` flag and a target id. Thresholds and geometry are not modelled.
- `Date.now()` is a `now` parameter, and so is the current year in the certification form.
- `Math.random()`: `Chat.ChatDemo.SendMessage` takes the chosen reply's index `pick`. `Chat.ResponseIndex` states that the floor-of-random index is always in range.
- Text.Join: the contract states only the empty case and that the text starts with the first piece. The separator layout after it is not stated, because only the suggestion text uses it.
- Chat.ChatDemo.SendMessage: the message and indicator ids come from `now` and are not required to be distinct.
- Storage events from other tabs arrive as the changed key. Events carry no payload in the model.
- The admin credentials from the build environment are parameters of `AdminPanel.Panel.HandleLogin`.
- A failing `localStorage.setItem`, for example over quota, is the `writeOk` parameter. The state is then already updated and storage is not, as in the source's catch path.
- The contact form's e-mail format validation by the browser is not modelled. Only `required` is.
- The chat's expand toggle and the language button's scale animation are not modelled.
- The lint rule loads icons with `createRequire`. This is the `available` parameter: the package's export names, or none when the package is missing.
- The rest of the ESLint configuration (the React hooks and TypeScript rule sets) is configuration data, not behaviour.
- The 15 static skill tags of the skills section are not modelled. They are fixed markup.
- Other components (the skills radar, scroll progress, back-to-top button, the application shell) and the language context are not part of this model.

## Findings

| source | as written | input that shows it | evidently intended | confidence | as-written member | corrected member |
|---|---|---|---|---|---|---|
| src/components/AdminPanel.tsx:1081 | the skill form starts at `skill?.level \|\| 50` | editing a skill saved at level 0 shows 50, and saving writes 50 | an edited skill keeps its level (`??`) | high, not executed | AdminPanel.SkillLevelZeroLost | AdminPanel.InitialSkillForm |
| src/components/AdminPanel.tsx:1281 | the radar form starts at `radarSkill?.level \|\| 80` | editing a radar skill saved at level 0 shows 80 | an edited radar skill keeps its level | high, not executed | AdminPanel.RadarLevelZeroLost | AdminPanel.InitialRadarForm |
| src/components/ProjectTimeline.tsx:117-136 | the observer effect has no dependencies. It observes only the elements of the first render, which shows the default entries | a saved timeline whose entries were created in the admin panel, with ids `timeline_<now>` (AdminPanel.tsx:356): those cards are never observed, so they never fade in | observe the loaded entries, re-running when the list changes | medium, not executed | Timeline.AddedEntryNeverShown | Timeline.Observed |
