# War Inc Rising page renderer, modelled in Dafny

The War Inc Rising guide site is a set of static HTML pages. Each page loads the same
script, `assets/js/app.js`. When the page loads, `initPage` does four things:

1. It reads the page's *category* (`type`) and item *id* from the URL path (`getPageContext`).
2. It loads the site's data file, a catalog that maps each category to an array of items.
3. It picks one item: the one whose `id` matches on `characters` and `guides` pages, and the
   first item of the category everywhere else.
4. It renders that item into the `main-content-area` element (`renderDetailItem`, with
   `renderSkills` and `renderTactics`) and sets the document title. When no item matches, it
   writes a "not found" notice instead.

This project models those four steps and proves what they promise.

- `wrappers.dfy`: `Option`.
- `js_text.dfy`: the JavaScript built-ins the script relies on, over `seq<char>`:
  - `split` on one character, with its partner `Join`;
  - `filter` of non-empty strings, `lastIndexOf`, `substring` with clamping and swapping,
    and `includes`;
  - truthiness, `||`, and `${}` interpolation, where a missing field prints as `undefined`;
  - `map(...).join('')`.
- `catalog.dfy`: the data file's records. Top-level item fields are `Option`s, so a field
  can be missing, as in JSON.
- `page_context.dfy`: `getPageContext` on a given path, and lemmas for each kind of page.
- `render.dfy`: the rendered fragment, described twice.
  - As a sequence of `Block`s: header, optional image, divider, stats, cost, rules, details,
    sections, skills, tactics. `Page` prints them.
  - As the script builds it: `RenderDetailItem` appends to `detailsHtml` one `if` block at a
    time, and the sections are added by a loop.
  - The two descriptions are proved to give the same string.
- `markup.dfy`: the repeated fragments (`<tr>` rows, `<li>` items, section pairs), with
  readers that recover the input sequence from them. Each reader is the round-trip partner of
  its fragment.
- `bootstrap.dfy`: `initPage`. The fetched data and the presence of `main-content-area` are
  parameters. The DOM writes are returned as an `Effect`.

Where the code and the written description of the site disagree, the model follows the code:

- The document title is set whenever an item is rendered, even when the page has no
  `main-content-area`: line 136 is outside the `if (contentArea)` block.
- The category is whatever segment comes second to last in the path, not only one of the
  five known categories. An unknown category gets no icon.

## Model

| member | source | states |
|---|---|---|
| JsText.Or | assets/js/app.js:105 | `a \|\| b` is `a` when `a` is truthy and `b` otherwise, so it is truthy iff either operand is |
| JsText.IndexOf | assets/js/app.js:13 | the index of the first separator, or -1 when none occurs |
| JsText.Split | assets/js/app.js:13 | `split` always returns at least one piece |
| JsText.SplitJoin | assets/js/app.js:13 | joining the pieces of `split` with the separator gives the path back |
| JsText.SplitSepFree | assets/js/app.js:13 | no piece of `split` contains the separator |
| JsText.SplitAppend | assets/js/app.js:13 | splitting `a + sep + b` gives the pieces of `a` followed by those of `b` |
| JsText.JoinSplit | assets/js/app.js:13 | splitting a join of separator-free pieces gives the pieces back |
| JsText.NonEmpty | assets/js/app.js:13 | the filter keeps every non-empty piece and nothing else; order and multiplicity are stated by `NonEmptyAppend` |
| JsText.NonEmptyAppend | assets/js/app.js:13 | filtering a concatenation filters each side and keeps them in order, so pieces keep their input order and count |
| JsText.LastIndexOf | assets/js/app.js:22 | the index of the last `.`, or -1 when none occurs |
| JsText.Includes | assets/js/app.js:23 | `s.includes(pat)`: `pat` occurs at some index of `s`; `IncludesInfix` states that any `p + pat + q` includes `pat` |
| JsText.IncludesInfix | assets/js/app.js:23 | every string of the form `p + pat + q` includes `pat` |
| JsText.Truthy | assets/js/app.js:54-126 | a string field is truthy iff present and non-empty; used by `Or`, `BlockPresence` and the `*Part` functions |
| JsText.Interp | assets/js/app.js:56-169 | `${}` prints a present string as itself and a missing field as `undefined` (a JSON `null` would print as `null`: see "Left out"); stated through `TitleFormula`, `HeaderFormula` and `ImagePreference` |
| JsText.MapJoin | assets/js/app.js:55-57 | `xs.map(f).join('')`; `MapJoinAppend`, `MapJoinAt` and the `Markup` round trips state that it is one fragment per element, in order |
| JsText.MapJoinAppend | assets/js/app.js:55-57 | mapping and joining a concatenation joins the two sides' fragments in order |
| JsText.Substring | assets/js/app.js:22 | `substring(0, end)` is the prefix up to `end` when that is in range, and `""` when `end` is -1 |
| PageContext.Segments | assets/js/app.js:13 | the non-empty pieces of the path; its contract is carried by `SegmentsWellFormed`, `SegmentsAppend` and `SegmentsOfPage` |
| PageContext.GetPageContext | assets/js/app.js:11-33 | the page's category and id; its contract is carried by `CategoryIsSegment`, `IdResolution` and the page-shape lemmas below |
| PageContext.FileStem | assets/js/app.js:21-22 | the stem is the file name up to its last dot; a name without a dot gives `""` |
| PageContext.SegmentsWellFormed | assets/js/app.js:13 | every path segment is non-empty and slash-free |
| PageContext.SegmentsAppend | assets/js/app.js:13 | the segments of `a/b` are those of `a` followed by those of `b` |
| PageContext.SegmentsOfPage | assets/js/app.js:13 | `<dir>/<category>/<file>` has the segments of `dir`, then the category, then the file |
| PageContext.CategoryIsSegment | assets/js/app.js:16 | a category exists iff there are at least two segments, and it is a non-empty slash-free segment |
| PageContext.IdResolution | assets/js/app.js:18-30 | the id comes from each branch in the script's order; there is no id iff there is no category, or the category is neither `characters` nor `guides` and the last segment does not include `index.html` |
| PageContext.CharacterPage | assets/js/app.js:19-22 | `<dir>/characters/<stem>.html` gives category `characters` and id `<stem>` |
| PageContext.CharactersIndexIsIndex | assets/js/app.js:19-25 | `characters/index.html` takes the characters branch and gets the id `index` |
| PageContext.CharacterWithoutDot | assets/js/app.js:19-22 | a character file name without a dot gives the empty id |
| PageContext.IndexPage | assets/js/app.js:23-25 | any other category's `index.html` uses the category name as its id |
| PageContext.GuidePage | assets/js/app.js:26-29 | a non-index guide page uses the file stem as its id |
| PageContext.OtherPage | assets/js/app.js:18-32 | a non-index page in any other category has no id |
| PageContext.SiteRootPage | assets/js/app.js:16 | a page directly under the site root has no category and no id |
| Markup.StatRow | assets/js/app.js:56 | a `<tr>` row of one stat (also the skill details row of line 144); `RowsRoundTrip` reads rows back |
| Markup.ListItem | assets/js/app.js:76 | a `<li>` item (also lines 85 and 168); `ItemsRoundTrip` reads items back |
| Markup.SectionPair | assets/js/app.js:96-99 | a section's `<h3>`/`<p>` pair; `SectionsRoundTrip` reads pairs back |
| Markup.RowsRoundTrip | assets/js/app.js:55-57 | the stats table body reads back as its rows, one per stat, in order |
| Markup.ItemsRoundTrip | assets/js/app.js:76 | a rules or details list reads back as its texts, one item each, in order |
| Markup.SectionsRoundTrip | assets/js/app.js:95-100 | the section pairs read back as the sections, in order |
| Render.Icon | assets/js/app.js:108-113 | the icon is non-empty exactly for the five known categories |
| Render.IconsDistinct | assets/js/app.js:108-113 | different known categories get different icons |
| Render.MainTitle | assets/js/app.js:104 | the heading's title; its contract is carried by `MainTitleFormula` and `HeaderFormula` |
| Render.MainTitleFormula | assets/js/app.js:104 | the title is exactly the Chinese name when the English name is empty or missing, and otherwise the Chinese name, ` (`, the English name and `)` |
| Render.HeaderBlock | assets/js/app.js:115-117 | the header block; its contract is carried by `HeaderFormula` and `HeaderAlwaysFirst` |
| Render.HeaderFormula | assets/js/app.js:104-117 | the first block is the header, holding the category's icon, the main title (with ` (English name)` only when that is non-empty), and the role, or the description when the role is empty or missing |
| Render.ImagePreference | assets/js/app.js:119 | the second block is the image of `main_image` when that is non-empty, otherwise of `icon`; with neither there is no image block |
| Render.PageTitle | assets/js/app.js:136 | the document title; its contract is carried by `TitleFormula` |
| Render.TitleFormula | assets/js/app.js:136 | the title is `War Inc Rising - `, then the Chinese name when it is non-empty, otherwise the id |
| Render.SkillHtml | assets/js/app.js:142-161 | one skill's fragment; its contents are stated by `SkillReadBack` and its position by `SkillBlockAt` |
| Render.SkillReadBack | assets/js/app.js:143-158 | a skill's fragment opens with `name_zh (name_en) - [type]` and the effect, ends with the icon image, and its table reads back as the skill's details, one row each, in order |
| Render.RenderSkills | assets/js/app.js:140-163 | the skills fragment, the heading then one fragment per skill; its contract is carried by `SkillBlockAt` |
| Render.SkillBlockAt | assets/js/app.js:140-162 | the fragment of skill `k` follows the heading and the fragments of the skills before it |
| Render.RenderTactics | assets/js/app.js:166-171 | the tactics fragment; its contract is carried by `TacticsReadBack` |
| Render.TacticsReadBack | assets/js/app.js:166-171 | the tactics list between its heading and `</ul>` reads back as the tips, in order |
| Render.ImagePart | assets/js/app.js:119 | the image is shown iff `main_image \|\| icon` is truthy, and it uses that file name |
| Render.StatsPart | assets/js/app.js:54 | the stats table is shown iff `stats` is present, and it holds those rows |
| Render.CostPart | assets/js/app.js:67 | the cost note is shown iff `cost` is truthy, and it holds that text |
| Render.RulesPart | assets/js/app.js:75 | the rules list is shown iff `rules` is present |
| Render.DetailsPart | assets/js/app.js:84 | the details list is shown iff `details` is present |
| Render.SectionsPart | assets/js/app.js:93-94 | the sections are shown iff `sections` is present; they carry those entries, and the heading holds `name_zh` and `content` as printed |
| Render.SkillsPart | assets/js/app.js:125 | the skill overview is shown iff `skills` is present |
| Render.TacticsPart | assets/js/app.js:126 | the tactics are shown iff `tactics` is present |
| Render.Html | assets/js/app.js:58-121 | one block's template literal, without its whitespace; `HeadLayout`, `DetailsLayout`, `TailLayout` and `RenderDetailItem` tie it to the script's templates |
| Render.Blocks | assets/js/app.js:115-127 | the page's blocks; stated by `BlocksInOrder`, `BlockPresence`, `BlockPayload`, `HeaderFormula` and `ImagePreference` |
| Render.BlocksInOrder | assets/js/app.js:50-127 | blocks always come in the fixed order: header, image, divider, stats, cost, rules, details, sections, skills, tactics |
| Render.MemberOfBlocks | assets/js/app.js:115-127 | every block on the page is the header, the divider or one of the optional parts |
| Render.PartsInBlocks | assets/js/app.js:115-127 | every optional part that is produced appears on the page |
| Render.BlockPresence | assets/js/app.js:50-127 | each optional block appears iff its field is truthy (an empty array is truthy, an empty string is not) |
| Render.BlockPayload | assets/js/app.js:50-127 | each block carries its field's value unchanged, and the sections heading holds `name_zh` and `content` as printed |
| Render.HeaderAlwaysFirst | assets/js/app.js:115-121 | the header is always first, and the divider is always present |
| Render.DetailsLayout | assets/js/app.js:51-101 | `detailsHtml` is stats, cost, rules, details, sections, each present or empty |
| Render.HeadHtml | assets/js/app.js:116-121 | the `outputHtml` template before `${detailsHtml}`; `HeadLayout` states it is the head blocks' HTML |
| Render.TailHtml | assets/js/app.js:125-126 | the template after `${detailsHtml}`; `TailLayout` states it is the tail blocks' HTML |
| Render.OutputHtml | assets/js/app.js:115-127 | the `outputHtml` template around `detailsHtml`; `PageLayout` states it is the page's HTML |
| Render.HeadLayout | assets/js/app.js:115-121 | the header, image and divider blocks print as the template before `detailsHtml` |
| Render.TailLayout | assets/js/app.js:125-126 | the skills and tactics blocks print as the template after `detailsHtml` |
| Render.PageLayout | assets/js/app.js:115-127 | the page is the head, then `detailsHtml`, then the skills and tactics |
| Render.AppendStats | assets/js/app.js:54-64 | appends the stats table when `stats` is present, otherwise nothing |
| Render.AppendCost | assets/js/app.js:67-72 | appends the cost note when `cost` is truthy, otherwise nothing |
| Render.AppendRules | assets/js/app.js:75-81 | appends the rules list when `rules` is present, otherwise nothing |
| Render.AppendDetails | assets/js/app.js:84-90 | appends the details list when `details` is present, otherwise nothing |
| Render.AppendSections | assets/js/app.js:93-101 | appends the sections heading and the pairs when `sections` is present, otherwise nothing |
| Render.AppendSectionPairs | assets/js/app.js:95-100 | the `forEach` loop appends one pair per section, in order |
| Render.RenderDetailItem | assets/js/app.js:50-137 | the fragment built by `+=` equals the block layout `Page(Blocks(item, category))`, and the title is `PageTitle(item)` |
| Bootstrap.StrictEquals | assets/js/app.js:187 | `item.id === id` when the page id is present (`LookupHasId`); `FindIndex` and `Find` are stated with it |
| Bootstrap.HasItems | assets/js/app.js:181 | the data loaded, has the category, and its array is non-empty; `InitPage` returns early iff it fails |
| Bootstrap.FindIndex | assets/js/app.js:187 | the index of the first item whose id is strictly equal to the page id, or none when no item matches |
| Bootstrap.Find | assets/js/app.js:187 | `find` returns nothing iff no item matches, and otherwise the first item that matches |
| Bootstrap.LookupHasId | assets/js/app.js:18-30 | a `characters` or `guides` page always has an id to look up |
| Bootstrap.InitPage | assets/js/app.js:174-201 | no effect iff there is no category or the category has no items; "not found" iff a lookup category has no item with a matching id; otherwise the selected item (the first match, or the first item) is rendered and the title is set |

## Left out

- `fetchData`, the network, the `response.ok` check and the `console.error` logging are not modelled. The data file's contents, or `None` when loading failed, are a parameter of `InitPage`.
- `window.location.pathname` and `document.getElementById` are parameters. The `DOMContentLoaded` listener and the `async`/`await` plumbing are not modelled.
- The whitespace and line breaks inside the script's template literals are not modelled. Each fragment is the concatenation of its literal pieces.
- Nested record fields (a stat's label and value, a section's title and text, a skill's fields) are plain strings. A missing nested field, which would print as `undefined`, is not modelled.
- A skill without a `details` array makes the script throw. The model gives every skill a `details` sequence.
- JSON values other than strings and arrays, such as numbers, booleans and arrays used where a string is expected, are not modelled.
- JsText.Interp: a JSON `null` and a missing field are both `None`, and `None` prints as `undefined`. The script prints a `null` field as `null`, for example `name_zh: null` in the `<h1>` and in the image's `alt`, so the model's text differs from the script's there.
- Category names that collide with JavaScript object properties, such as `constructor`, are not modelled. The catalog is a `map`.
- Markup.RowsRoundTrip, Markup.ItemsRoundTrip, Markup.SectionsRoundTrip and Render.TacticsReadBack: the round trips are proved only for text without `<`. The script does not escape its values, so text containing markup cannot be read back.
- Render.RenderDetailItem: the script writes the fragment into the content area and sets the title itself. The model returns both, and `InitPage` turns them into its `Effect`.
- Render.RenderDetailItem: each `if` block of the script's body is its own `Append…` method.
- Render.SkillHtml and Render.SkillReadBack: the details table is read back, but the name line, effect and icon are stated as the exact text around it and not parsed. The details read back only when they contain no `<`.
- JavaScript strings are UTF-16 and Dafny characters are Unicode scalar values. Only the emptiness of a segment depends on length, so this changes nothing here.
