# mad-story core, modelled in Dafny

mad-story builds a Korean résumé (이력서) and a career statement (경력기술서) from records the user
keeps: basic information, careers, skills, education, projects and other items. This project
models the computations underneath the pages:

- the section checkboxes of the two documents, and which sections each document shows, in what order;
- grouping skills by category, including the order `Object.entries` lists the groups in;
- total and per-career tenure in months, and its split into years and months;
- the dashboard's badge, its current-employer lookup and its null-safe counts;
- the editors' form state: defaults, loading a record, the tech and achievement list edits, the
  "current" checkbox and the achievement indentation;
- drag-and-drop reordering (`arrayMove` followed by one `display_order` write per record);
- the month picker's value format, its year and month lists and its confirm step;
- the tech-stack treemap's category filter, colours, font tiers, name truncation and icon rule.

JavaScript behaviour the pages rely on is written out in module `Js`:

- `trim`, `split` and `parseInt`;
- number-to-string conversion;
- `%`, which truncates toward zero;
- NaN, as `None`;
- the `Object.prototype` names that every object literal answers.

A missing value (`null`/`undefined` before data loads) is `Option.None`. Pages become pure
functions, or methods of a class where the page keeps React state. The current month (`new
Date()`) and the current year are parameters.

## Model

| member | source | states |
|---|---|---|
| Sections.ToggleFlipsOne | app/resume/page.tsx:40-42 | toggling negates exactly the chosen flag, keeps every other flag and the key set |
| Sections.ToggleTwice | app/career/page.tsx:30-32 | toggling a section twice restores the flags |
| Sections.ToggleCommutes | app/resume/page.tsx:40-42 | toggles of two sections commute |
| Sections.Selection.ToggleSection | app/resume/page.tsx:40-42 | the state becomes the toggled copy of the old flags |
| Sections.PickedSpec | app/resume/page.tsx:66-217 | picking from a ranked order keeps exactly the admitted sections, still strictly ranked |
| Sections.LayoutSections | app/career/page.tsx:46-197 | the laid-out blocks name exactly the picked sections, in order |
| ResumePage.Defaults | app/resume/page.tsx:29-36 | all six sections start chosen |
| ResumePage.LevelText | app/resume/page.tsx:8-15 | a description exists exactly for levels 1 to 3; other levels give "" |
| ResumePage.LevelTextsDistinct | app/resume/page.tsx:8-15 | the three descriptions differ |
| ResumePage.CareerMonths | app/resume/page.tsx:118-121 | a career's months are end index minus start index, with the end at now while current; NaN exactly when a date is not valid |
| ResumePage.TotalSplit | app/resume/page.tsx:52-60 | when every career is well dated, the total is a number ≥ 0 and years·12 + months recombine to it, with 0 ≤ months < 12 |
| ResumePage.TotalNaN | app/resume/page.tsx:52-57 | one career with an unreadable or missing date makes the total NaN |
| ResumePage.TotalAppend | app/resume/page.tsx:52-57 | the total over a concatenation is the sum of the totals |
| ResumePage.HeadingOf | app/resume/page.tsx:78-92 | the header shows the name, or "이름 없음" when it is empty; the English name, e-mail and phone only when set |
| ResumePage.BlockOf | app/resume/page.tsx:66-217 | each section renders a block of its own kind |
| ResumePage.OrderByRank | app/resume/page.tsx:66-217 | each section sits at its rank in the document order |
| ResumePage.DocumentSections | app/resume/page.tsx:66-217 | a section is in the résumé exactly when it is chosen and has content; order is basic, introduction, career, skills, education, projects, each at most once |
| ResumePage.DocumentPicks | app/resume/page.tsx:66-217 | the document's blocks name the sections picked from the order |
| ResumePage.HeaderShown | app/resume/page.tsx:66-78 | a chosen header is the first block, with the name fallback |
| ResumePage.DefaultSkillsShown | app/resume/page.tsx:165 | with the defaults the skills section is visible exactly when there is a skill |
| ResumePage.PageSections | app/resume/page.tsx:44-50 | the page renders exactly when no skill's category names an Object.prototype member, whatever sections are chosen; a rendered page shows exactly the visible sections, in rank order |
| ResumePage.DefaultSkillsOnPage | app/resume/page.tsx:165 | with the defaults a rendered page has the skills section exactly when there is a skill; a page that fails to render has skills |
| CareerStatementPage.Defaults | app/career/page.tsx:20-26 | education starts unchosen; there is no introduction flag |
| CareerStatementPage.EntryOf | app/career/page.tsx:79-81 | a career's range ends in "현재" exactly when it is current, else in its end date |
| CareerStatementPage.OrderByRank | app/career/page.tsx:46-197 | each section except the introduction sits at its rank; the introduction is not in the order |
| CareerStatementPage.DocumentSections | app/career/page.tsx:46-197 | a section is in the statement exactly when it is chosen and has content; never the introduction; order is basic, career, projects, skills, education |
| CareerStatementPage.PickedFromOrder | app/career/page.tsx:46-197 | picking from the statement order keeps the admitted sections other than the introduction, in rank order |
| CareerStatementPage.DocumentPicks | app/career/page.tsx:46-197 | the statement's blocks name the sections picked from its order |
| CareerStatementPage.DefaultsHideEducation | app/career/page.tsx:20-26 | with the defaults the statement never shows education, on a rendered page too |
| CareerStatementPage.PageSections | app/career/page.tsx:34-40 | the page renders exactly when no skill's category names an Object.prototype member, whatever sections are chosen; a rendered page shows exactly the visible sections, never the introduction, in rank order |
| SkillGrouping.GroupSkills | app/resume/page.tsx:44-50 | the reduce succeeds exactly when no category names an Object.prototype member, and then gives the reference grouping; a failure reports the first such skill |
| SkillGrouping.GroupedPermutation | app/career/page.tsx:34-40 | the groups hold every skill exactly as often as the input |
| SkillGrouping.GroupedPartition | app/resume/page.tsx:44-50 | one non-empty group per category present, no category twice, each with its category's skills in input order |
| SkillGrouping.GroupedFirstSeenOrder | app/resume/page.tsx:176 | without numeric category names the groups come in first-seen order |
| SkillGrouping.GroupedEmpty | app/resume/page.tsx:165 | there is a group exactly when there is a skill |
| SkillGrouping.ConstructorCategoryThrows | app/resume/page.tsx:45-48 | a skill in category "constructor" makes the reduce throw |
| Tenure.MonthsBetweenSign | app/resume/page.tsx:121 | the month difference is ≥ 0 exactly when the end does not come before the start |
| Tenure.SumDefined | app/dashboard/page.tsx:57-62 | a total is a number exactly when no term is NaN |
| Tenure.SumAppend | app/dashboard/page.tsx:57-62 | summing a concatenation adds the sums |
| Tenure.SumNonNegative | app/resume/page.tsx:52-57 | a sum of non-negative months is non-negative |
| Tenure.SplitMonths | app/resume/page.tsx:59-60 | years and months are numbers exactly when the total is |
| Tenure.SplitNonNegative | app/dashboard/page.tsx:64-65 | for a total ≥ 0, years·12 + months equals the total, with 0 ≤ months < 12 |
| Tenure.SplitNegative | app/dashboard/page.tsx:64-65 | for a negative total, `%` gives a non-positive month count, and floor division makes years·12 + months fall 12 short of the total unless the total is a multiple of 12 |
| Dashboard.EndOf | app/dashboard/page.tsx:59 | the end is now while current, else the end date, else the start date |
| Dashboard.CareerMonths | app/dashboard/page.tsx:57-61 | months between start and the fallback end; NaN exactly when one is not valid |
| Dashboard.MissingEndCountsZero | app/dashboard/page.tsx:59 | a finished career without an end date counts 0 months |
| Dashboard.TotalOfNothing | app/dashboard/page.tsx:57 | before the careers load, and with none, the total is 0 |
| Dashboard.TotalDefined | app/dashboard/page.tsx:57-62 | the total is a number exactly when every career's dates are readable after the fallback |
| Dashboard.TotalAppend | app/dashboard/page.tsx:57-62 | the total over a concatenation adds the totals |
| Dashboard.BadgeForm | app/dashboard/page.tsx:82 | a year or more shows "Y년 M개월" recombining to the total; less than a year shows months only; NaN shows "NaN개월" |
| Dashboard.CurrentCareer | app/dashboard/page.tsx:55 | a career is found exactly when one is current, and it is the first current one |
| Dashboard.FirstCurrentIndex | app/dashboard/page.tsx:55 | `find` stops at the first current career, or passes the end |
| Dashboard.Count | app/dashboard/page.tsx:94 | a loaded list counts its length; a missing one counts 0 |
| Dashboard.ShowTechCard | app/dashboard/page.tsx:181 | the tech card shows exactly when the stats are loaded and non-empty |
| Dashboard.BasicStatus | app/dashboard/page.tsx:201-202 | "입력완료" exactly when a name is present, else "미입력" |
| ListEdits.AddTechOutcome | app/data/projects/page.tsx:250-259 | a new non-blank tech is appended trimmed and the input cleared; otherwise nothing changes |
| ListEdits.AddTechKeepsDistinct | app/data/projects/page.tsx:250-259 | adding never creates a duplicate, a blank or an untrimmed entry |
| ListEdits.RemoveTech | app/data/projects/page.tsx:261-267 | the result holds exactly the entries other than the removed tech |
| ListEdits.RemoveTechAppend | app/data/projects/page.tsx:261-267 | removal keeps the order of what it keeps |
| ListEdits.RemoveTechAbsent | app/data/projects/page.tsx:261-267 | removing an unlisted tech changes nothing |
| ListEdits.RemoveAddedTech | app/data/projects/page.tsx:250-267 | removing what was just added restores the list |
| ListEdits.AddAchievementOutcome | app/data/projects/page.tsx:269-278 | a non-blank achievement is appended trimmed and the input cleared; otherwise nothing changes |
| ListEdits.RemoveAchievement | app/data/projects/page.tsx:280-286 | the entry at a valid index is dropped; any other index changes nothing |
| ListEdits.RemoveAddedAchievement | app/data/career/page.tsx:211-226 | removing the just-appended achievement restores the list |
| ListEdits.IndentLevel | app/data/career/page.tsx:368-369 | the level is half the leading spaces, capped at 2 |
| ListEdits.IndentLevelOfSpaces | app/data/career/page.tsx:368-369 | 2 spaces give level 1; 4 or 6 give level 2; fewer than 2 give level 0 |
| ListEdits.AddedAchievementLevel | app/data/career/page.tsx:211-219 | a freshly added (trimmed) achievement is at level 0 |
| Reorder.FindIndex | app/data/projects/page.tsx:170-171 | the first position with the id, or -1 exactly when the id is absent |
| Reorder.ArrayMoveSpec | app/data/projects/page.tsx:172 | the move keeps the length and the multiset of items and puts the item at the target; the rest keep their order |
| Reorder.ArrayMoveInverse | app/data/projects/page.tsx:172 | moving back restores the list |
| Reorder.MovedIdsDistinct | app/data/education/page.tsx:133-154 | a list with distinct ids keeps them distinct after a move |
| Reorder.RewriteAll | app/data/projects/page.tsx:176-181 | after the loop every record of the list is stored with display_order equal to its position; others are untouched |
| Reorder.Store.Update | app/data/other-items/page.tsx:139-160 | a write stores the record under its id, or throws and stores nothing |
| Reorder.WriteOrder | app/data/projects/page.tsx:176-181 | the items are written renumbered in list order up to the first failing update, which is reported; nothing is reported when every update succeeds |
| Reorder.HandleDragEnd | app/data/projects/page.tsx:166-187 | without a real move nothing is written; otherwise records are renumbered in moved order up to the first failing write, and refetch happens exactly when none fails |
| CareerEditor.HandleDragEnd | app/data/career/page.tsx:144-154 | the career list computes the move and refetches, but writes nothing |
| CareerEditor.DefaultForm | app/data/career/page.tsx:123-133 | an empty form, not current, with no achievements and logo fit "contain" |
| CareerEditor.Editor.SetCurrent | app/data/career/page.tsx:328-330 | "current" takes the checked value and the end date is cleared; the end picker is disabled exactly when checked |
| CareerEditor.Editor.EndDateDisabled | app/data/career/page.tsx:321 | the end-date picker is disabled exactly while current |
| CareerEditor.Editor.AddAchievement | app/data/career/page.tsx:211-219 | a non-blank input appends to the list (a missing list read as empty); a blank one changes nothing |
| CareerEditor.Editor.RemoveAchievement | app/data/career/page.tsx:221-226 | the list is present afterwards even when it was missing |
| CareerEditor.Editor.ResetForm | app/data/career/page.tsx:176-191 | the form and inputs return to the defaults and editing ends |
| CareerEditor.Editor.HandleEdit | app/data/career/page.tsx:193-197 | the record is loaded as it is and editing starts on its id |
| ProjectsEditor.FormOf | app/data/projects/page.tsx:228-236 | a loaded project's missing lists read as empty; the id and the other fields copy over |
| ProjectsEditor.DefaultForm | app/data/projects/page.tsx:144-155 | an empty form with no id, empty lists and logo fit "contain" |
| ProjectsEditor.Editor.AddTech | app/data/projects/page.tsx:250-259 | only the tech list and input change, as the list edit says, and distinct lists stay distinct |
| ProjectsEditor.Editor.RemoveTech | app/data/projects/page.tsx:261-267 | only the tech list changes, and the tech is gone from it |
| ProjectsEditor.Editor.AddAchievement | app/data/projects/page.tsx:269-278 | only the achievement list and input change, as the list edit says |
| ProjectsEditor.Editor.RemoveAchievement | app/data/projects/page.tsx:280-286 | only the achievement list changes; a valid index shortens it by one |
| ProjectsEditor.Editor.ResetForm | app/data/projects/page.tsx:209-226 | the form and inputs return to the defaults and editing ends |
| ProjectsEditor.Editor.HandleEdit | app/data/projects/page.tsx:228-236 | the normalised record is loaded and editing starts on its id |
| EducationEditor.DefaultForm | app/data/education/page.tsx:115-124 | an empty form with logo fit "contain" |
| EducationEditor.Editor.ResetForm | app/data/education/page.tsx:176-189 | the form returns to the defaults and editing ends |
| EducationEditor.Editor.HandleEdit | app/data/education/page.tsx:191-195 | the record is loaded and editing starts on its id |
| OtherItemsEditor.DefaultForm | app/data/other-items/page.tsx:123-130 | an empty form with display order 0 |
| OtherItemsEditor.SuggestionsDistinct | app/data/other-items/page.tsx:38-48 | nine distinct, non-empty suggested categories |
| OtherItemsEditor.CategoryIsFreeText | app/data/other-items/page.tsx:248-270 | a form can be submitted exactly when category and title are non-empty, whether or not the category is a suggested one |
| OtherItemsEditor.Editor.SetCategory | app/data/other-items/page.tsx:248-261 | only the category changes |
| OtherItemsEditor.Editor.ResetForm | app/data/other-items/page.tsx:182-193 | the form returns to the defaults and editing ends |
| OtherItemsEditor.Editor.HandleEdit | app/data/other-items/page.tsx:195-199 | the record is loaded and editing starts on its id |
| SkillsEditor.DefaultForm | app/data/skills/page.tsx:24-28 | an empty form at level 2 |
| SkillsEditor.LevelOptions | app/data/skills/page.tsx:138-152 | three options, values 1 to 3, each captioned with its number and description |
| SkillsEditor.LevelOptionsExact | app/data/skills/page.tsx:138-152 | a level can be chosen exactly when it is 1 to 3 |
| SkillsEditor.GroupedSkills | app/data/skills/page.tsx:74-82 | no groups before the skills load; afterwards the grouping, failing exactly as the reduce does and exactly when the listing has no page |
| SkillsEditor.NoSkillsMessage | app/data/skills/page.tsx:173 | on a page that renders, the empty message shows before loading and exactly when there are no skills; a page that fails to render has skills |
| SkillsEditor.Editor.SetLevel | app/data/skills/page.tsx:141-146 | only the level changes |
| SkillsEditor.Editor.ResetForm | app/data/skills/page.tsx:50-54 | the form returns to the defaults and editing ends |
| SkillsEditor.Editor.HandleEdit | app/data/skills/page.tsx:56-60 | the skill is loaded and editing starts on its id |
| MonthPicker.ParseOfFormat | components/ui/month-picker.tsx:35-40 | a value the picker emits reads back as the year and month chosen |
| MonthPicker.InitialYear | components/ui/month-picker.tsx:35-37 | the value's year part, or the current year when there is no value |
| MonthPicker.YearsRange | components/ui/month-picker.tsx:43-46 | 51 years, ascending from 25 before to 25 after the current one |
| MonthPicker.YearsWithoutDash | components/ui/month-picker.tsx:43-46 | no listed year contains "-" |
| MonthPicker.MonthsInOrder | components/ui/month-picker.tsx:48-61 | the months are "01" to "12" in order, captioned without the leading zero, each reading back as its number |
| MonthPicker.DisplayValue | components/ui/month-picker.tsx:70-72 | the display is empty exactly when the value is |
| MonthPicker.DisplayOfFormat | components/ui/month-picker.tsx:70-72 | an emitted value displays as "<year>년 <month>월" without the leading zero |
| MonthPicker.Picker.ConfirmDisabled | components/ui/month-picker.tsx:123 | confirm is disabled exactly while the year or month is empty |
| MonthPicker.Picker.HandleSelect | components/ui/month-picker.tsx:63-68 | emits "year-month" and closes exactly when both are set and a handler exists; otherwise nothing changes |
| MonthPicker.ReopenAfterSelect | components/ui/month-picker.tsx:35-68 | a picker mounted with the emitted value starts on the year and month that were confirmed |
| TechStackTreemap.FilterMain | components/tech-stack-treemap.tsx:187 | a category is drawn exactly when it is in the data and its name is main |
| TechStackTreemap.FilterMainKeepsOrder | components/tech-stack-treemap.tsx:186-187 | the drawn categories are a subsequence of the data, in the data's order |
| TechStackTreemap.FilterMainAppend | components/tech-stack-treemap.tsx:187 | filtering a concatenation filters each part |
| TechStackTreemap.FilterMainOfMain | components/tech-stack-treemap.tsx:186-187 | data of main categories only is drawn unchanged: no re-sort |
| TechStackTreemap.Colour | components/tech-stack-treemap.tsx:192 | a listed name's colour, else the '기타' colour |
| TechStackTreemap.MainColours | components/tech-stack-treemap.tsx:71-80 | each main category has its own colour, none of them the fallback |
| TechStackTreemap.HeaderOf | components/tech-stack-treemap.tsx:196-200 | the header count is the number of children |
| TechStackTreemap.Render | components/tech-stack-treemap.tsx:178-187 | missing or empty data gives the placeholder, and only then |
| TechStackTreemap.RenderHeaders | components/tech-stack-treemap.tsx:186-200 | the grid's headers are exactly those of the main categories, each in its own colour |
| TechStackTreemap.OnlyOtherGivesEmptyGrid | components/tech-stack-treemap.tsx:178-187 | data without a main category gives an empty grid, not the placeholder |
| TechStackTreemap.BaseFontSize | components/tech-stack-treemap.tsx:89-99 | the tier is one of 8, 9, 10, 12, 14 |
| TechStackTreemap.BaseFontSizeMonotone | components/tech-stack-treemap.tsx:89-99 | a larger area never gets a smaller tier |
| TechStackTreemap.BaseFontSizeBounds | components/tech-stack-treemap.tsx:89-99 | 14 exactly above 10000, at least 10 exactly above 2500, 8 exactly at or below 1000 |
| TechStackTreemap.Truncate | components/tech-stack-treemap.tsx:110-117 | a text longer than a budget above 3 becomes its first budget−2 characters plus "..", exactly the budget long; otherwise unchanged |
| TechStackTreemap.TruncateIdempotent | components/tech-stack-treemap.tsx:110-119 | truncating twice equals truncating once; with a budget above 3 the result fits |
| TechStackTreemap.TileOf | components/tech-stack-treemap.tsx:105-157 | labels only above 30×25; the icon when it exists and the tile exceeds 30×30; the value above 50×35 when there is no icon |
| TechStackTreemap.IconNamesWithSpaces | components/tech-stack-treemap.tsx:35-65 | "React Native" and "Tailwind CSS" get their icons, written with the space; the names without it get none |
| TechStackTreemap.IconRule | components/tech-stack-treemap.tsx:105-106 | the icon shows exactly when the name has one and the tile exceeds 30×30; never together with the value; never for a missing name |
| Js.TrimIdempotent | app/data/projects/page.tsx:251 | trimming twice is trimming once |
| Js.ParseIntOfIntToString | components/ui/month-picker.tsx:43-46 | parseInt reads back the decimal text of an integer |
| Js.SplitJoinedPair | components/ui/month-picker.tsx:35-40 | splitting "a-b", with no "-" in a or b, gives [a, b] |

## Left out

- Network and storage I/O (Supabase hooks, the file-storage hook, `refetch`, the API routes) are not
  modelled. A record store is a map, and a throwing request is a set of failing ids.
- Async scheduling, `alert`/`confirm`, `console.error`, dnd-kit sensors and event wiring, and all
  JSX styling and printing are left out. They hold no logic the documents depend on.
- `profileImage` on the résumé header (app/resume/page.tsx:69) is only an image tag, so it is left out.
- `new Date(...)`: a date field is already a year and month, or Empty, or Invalid. Day, time zone
  and locale are not modelled.
- The current month and the current year are parameters, not clock reads.
- Floating-point layout in the treemap (`Math.min(baseFontSize, width/5, height/2.5)`, the icon
  size, pixel positions) is left out. So is the derivation of `maxChars`, which the model takes
  as an integer input. Tile width and height are reals, not IEEE doubles.
- A negative total (an end before its start) is not clamped to 0, because the code never clamps it
  (app/resume/page.tsx:59-60, app/dashboard/page.tsx:64-65).
- Reorder.ArrayMove: requires both indices to be valid. dnd-kit only reports ids of the displayed
  list, so `findIndex` never returns -1 there. The `-1` behaviour of `arrayMove` is not modelled.
- ResumePage.CareerMonths: an undefined `endDate` on a finished career is read as an empty date
  field and gives NaN. The JavaScript `new Date(undefined)` also gives NaN.
- MonthPicker.InitialMonth: a value without "-" gives the month `undefined`, modelled as "".
  Both leave the confirm button disabled.
- The statistics feeding the treemap and the dashboard (the `lib/api` aggregation) are not part of
  this model; the treemap takes its categories as input.
- ResumePage.Document, ResumePage.BlockOf, ResumePage.Visible: these build the skills section from
  the corrected grouping `SkillGrouping.Grouped`. On data the reduce throws on they describe a page
  the browser never draws. `ResumePage.Page` is the page as it renders, `None` on that data.
- ResumePage.DocumentSections: states the sections for every input, including data the reduce throws
  on, where no page renders; `ResumePage.PageSections` is the statement about the rendered page.
- ResumePage.DefaultSkillsShown: speaks of visibility, not of a rendered page; see
  `ResumePage.DefaultSkillsOnPage`.
- CareerStatementPage.Document, CareerStatementPage.BlockOf, CareerStatementPage.Visible: likewise
  built from `SkillGrouping.Grouped`; `CareerStatementPage.Page` is `None` where the reduce throws.
- CareerStatementPage.DocumentSections: states the sections for every input, including data the
  reduce throws on; `CareerStatementPage.PageSections` is the statement about the rendered page.
- SkillsEditor.NoSkillsMessage: its second clause reads the message off the corrected grouping
  even where the reduce throws; `SkillsEditor.Listing` is `None` there.
- TechStackTreemap.Truncate: lengths and the cut point count characters (code points). JavaScript
  counts UTF-16 code units, so names with characters outside the Basic Multilingual Plane (emoji)
  are not modelled exactly.
- The date-picker, top-header and landing page hold no logic beyond foreign widgets and markup.
  They are not part of this model.

## Findings

| source | as written | input that shows it | evidently intended | confidence | as-written member | corrected member |
|---|---|---|---|---|---|---|
| app/resume/page.tsx:44-50 | `if (!acc[skill.category]) acc[skill.category] = []; acc[skill.category].push(skill)` on the accumulator `{}` | a skill whose category is "constructor" (or "toString", "__proto__"): `acc["constructor"]` is the inherited function, so no list is created and `.push` throws a TypeError | every category gets its own group of its skills | not executed | SkillGrouping.GroupSkills | SkillGrouping.Grouped |
