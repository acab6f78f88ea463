# vividkit-web, modelled in Dafny

This project models the logic of the vividkit-web marketing site, an Astro site
with an English and a Vietnamese edition, and proves properties of that model:

- **I18n** (`i18n.dfy`): `src/i18n/index.ts`. The two languages, `getLangFromUrl`, which reads the
  language from the first path segment, and `translatePath`, which strips one known language
  prefix and adds the target's prefix. `translatePath` is a method with the source's
  `for … break` loop, proved against the function `Translated`.
- **Translations** (`translations.dfy`): `src/i18n/utils.ts`. The lookup `t(key)`, which falls
  back to the English table when the chosen table's value is missing or empty. The two tables
  are parameters.
- **Sitemap** (`sitemap.dfy`): `src/pages/sitemap.xml.ts`. The page table, and its expansion
  into one English and one Vietnamese `<url>` entry per page. Each entry has `hreflang`
  alternates, and the Vietnamese priority is scaled by 0.9. The model also renders the XML
  text. The date and the configured site URL are parameters.
- **WaitlistForm** (`form_handler.dfy`): `src/scripts/form-handler.ts`. The e-mail check,
  specified by the strings its regular expression `^[^\s@]+@[^\s@]+\.[^\s@]+$` matches.
  Also `validateForm`, a method that fills the error record check by check.
- **Flowchart** and **FlowchartIntegrity** (`flowchart.dfy`, `flowchart_integrity.dfy`):
  `src/data/guides/flowchart.ts`. The node, edge and path tables, `generatePath`, and the three
  lookups. FlowchartIntegrity proves what the tables guarantee:
  - node, edge and path ids are unique, and so are path commands;
  - every edge joins existing nodes and is drawn between their positions;
  - every path is a chain of existing edges;
  - every path colour is defined.
- **ThemeToggle** (`theme_toggle.dfy`): `src/scripts/theme-toggle.ts`. A class holds the
  document's `dark` class, the `theme` entry of local storage and the registered handlers.
  `initThemeToggle`, a click and a colour-scheme change are methods on it. Each is proved
  against functions on a `Theme` value, and lemmas state what the script promises about those
  functions.
- **NavHighlight** (`nav_highlight.dfy`): `src/scripts/nav-scroll-highlight.ts`.
  - The navigation links are objects whose class sets are changed in place.
  - The active-section scan is a loop proved against `ActiveId`.
  - The intersection callback is proved to let the last intersecting entry decide.
  - The scroll throttle keeps the invariant that at most one animation frame is pending.
- **Text** and **Wrappers**: the string operations the scripts call (`split`, `trim`, number
  printing) and an `Option` type.

Browser APIs are inputs or fields rather than calls:
- `localStorage` and `matchMedia`;
- `getBoundingClientRect` and the intersection entries;
- `requestAnimationFrame`, modelled as a pending-frame count.

`initThemeToggle` has no guard against running twice. Run twice on one document, it registers
two click handlers, and `ThemeToggle.DoubleRegistrationCancels` shows that a click then leaves
the theme unchanged.

## Model

| member | source | states |
|---|---|---|
| I18n.LanguageOfCode | src/i18n/index.ts:1-4 | a code is found only for a supported language, and each supported code is found |
| I18n.SecondFieldIsFirstSegment | src/i18n/index.ts:11 | field 1 of `pathname.split('/')` exists exactly when there is a first segment, and it is that segment |
| I18n.GetLangFromUrl | src/i18n/index.ts:10-14 | Vietnamese exactly when the first path segment is `vi`, and the default English otherwise |
| I18n.FirstSegmentOf | src/i18n/index.ts:11 | the first segment of `/seg/rest` and of `/seg` is `seg` |
| I18n.LangOfPrefixedPath | src/i18n/index.ts:10-14 | `/<code>/…` and `/<code>` are read as that language |
| I18n.RootIsDefault | src/i18n/index.ts:11-13 | `/` gives the default language |
| I18n.LaterSegmentIgnored | src/i18n/index.ts:11-13 | only the first segment decides: a code in a later segment is ignored |
| I18n.LongerSegmentIsDefault | src/i18n/index.ts:12 | a segment that only begins with a code (`/video`) is not that language |
| I18n.GetLangCodeAsWritten | src/i18n/index.ts:10-14 | as written, with JavaScript `in`: a first segment that names an inherited object property is returned as the language |
| I18n.PrototypeNameAccepted | src/i18n/index.ts:12 | `/toString/…` and similar paths return a name that is no language under the as-written code, and English under the corrected one |
| I18n.PrototypeNamesAreSegments | src/i18n/index.ts:12 | no inherited property name contains `/` or equals a supported code |
| I18n.AsWrittenAgreesOnSupportedCodes | src/i18n/index.ts:10-14 | whenever the as-written code returns a supported code, it agrees with the corrected function |
| I18n.UnprefixedByFirstLetter | src/i18n/index.ts:20-28 | a rooted path whose second character is neither `e` nor `v` carries no language prefix |
| I18n.CleanPath | src/i18n/index.ts:19-28 | `cleanPath`: the path with the first matching language prefix stripped, tried in the order of `Object.keys(languages)` |
| I18n.Translated | src/i18n/index.ts:16-31 | the value `translatePath` returns: the stripped path for English, else `/<code>` followed by the stripped path |
| I18n.TranslatePath | src/i18n/index.ts:16-31 | the loop's result is `Translated(path, l)`, with `l` defaulting to the closure's language |
| I18n.CleanPathCases | src/i18n/index.ts:19-28 | the stripping loop written out: `/en/…`, `/en`, `/vi/…` and `/vi` in that order; any other path is kept |
| I18n.StripsOnePrefix | src/i18n/index.ts:21-23 | `/<code>/rest` becomes `/rest`, keeping the slash |
| I18n.BareCodeIsRoot | src/i18n/index.ts:24-26 | a bare `/<code>` becomes `/`, so its Vietnamese translation is `/vi/` |
| I18n.UnprefixedUnchanged | src/i18n/index.ts:19-28 | a path without a prefix is not changed by stripping |
| I18n.PrefixNeedsSlash | src/i18n/index.ts:21-24 | `/english` and `/video` are not stripped |
| I18n.CleanPathRooted | src/i18n/index.ts:19-28 | stripping keeps a rooted path rooted |
| I18n.TranslateViIdempotent | src/i18n/index.ts:16-31 | translating to Vietnamese twice equals translating once |
| I18n.TranslateEnIdempotent | src/i18n/index.ts:16-31 | translating to English twice equals once when the stripped path has no second prefix |
| I18n.TranslateEnNotIdempotent | src/i18n/index.ts:16-31 | `/en/vi/x` → `/vi/x` → `/x`: English translation is not idempotent in general |
| I18n.RoundTrip | src/i18n/index.ts:16-31 | to Vietnamese and back to English gives the stripped path, so an unprefixed path comes back unchanged |
| I18n.LangOfTranslated | src/i18n/index.ts:10-31 | an unprefixed path translated to any language is read back as that language |
| Translations.T | src/i18n/utils.ts:11-15 | the chosen table's value when it is truthy, else the English value; English when no language is given |
| Translations.LookupIsLocal | src/i18n/utils.ts:11-15 | the result depends only on the chosen and the English table |
| Translations.MissingVietnameseFallsBack | src/i18n/utils.ts:11-15 | a key missing from the Vietnamese table gives the English value |
| Sitemap.SiteUrl | src/pages/sitemap.xml.ts:8 | the configured URL when it is non-empty, else `https://vividkit.com` |
| Sitemap.ScaledPriority | src/pages/sitemap.xml.ts:42 | nine tenths of the priority, rounded to the nearest tenth, never above the original |
| Sitemap.Entries | src/pages/sitemap.xml.ts:26-47 | two entries per page, English at `2i` and Vietnamese at `2i+1` |
| Sitemap.EntriesAppend | src/pages/sitemap.xml.ts:26 | `flatMap` over a concatenation concatenates: entries follow the table order |
| Sitemap.EntryTexts | src/pages/sitemap.xml.ts:28-46 | one rendered text per entry, in order |
| Sitemap.EntryText | src/pages/sitemap.xml.ts:28-46 | one `<url>` element: `loc`, `lastmod`, `changefreq`, `priority` and the three `hreflang` alternates, each on its own line |
| Sitemap.Join | src/pages/sitemap.xml.ts:52 | `Array.prototype.join`: the parts with one separator between neighbours |
| Sitemap.JoinLayout | src/pages/sitemap.xml.ts:52 | every part of a join stands at its start position, one separator stands between neighbours, and the text ends with the last part |
| Sitemap.SitemapXml | src/pages/sitemap.xml.ts:49-53 | the document starts with the XML declaration and `urlset` header and ends with `</urlset>`; between them stands the text of each entry of the expanded table, in order, with one line break between neighbours |
| Sitemap.Document | src/pages/sitemap.xml.ts:49-53 | a document whose body joins any parts with line breaks has the header first, the footer last, and the parts laid out between them |
| Sitemap.PriorityValues | src/pages/sitemap.xml.ts:12-42 | the table priorities print as written, and their scaled values print `0.9`, `0.8`, `0.7`, `0.6` |
| Sitemap.TablePathsUnprefixed | src/pages/sitemap.xml.ts:11-21 | every table path is rooted and has no language prefix |
| Sitemap.PagePair | src/pages/sitemap.xml.ts:28-46 | the two `loc`s are the page's English and Vietnamese `translatePath` results, and both entries carry the same three alternates |
| Sitemap.TablePrioritiesInRange | src/pages/sitemap.xml.ts:11-21 | every table priority is between 0.0 and 1.0 |
| Sitemap.SitemapFields | src/pages/sitemap.xml.ts:11-47 | 18 entries; both entries of a page copy its `changefreq`; the English priority is the table's, the Vietnamese one scaled |
| Sitemap.SitemapDatesAndRange | src/pages/sitemap.xml.ts:23-47 | every entry has the one `lastmod` and a priority of at most 1.0 |
| Sitemap.EntriesInRange | src/pages/sitemap.xml.ts:26-47 | a table with priorities in range expands to entries in range |
| Sitemap.SitemapLocations | src/pages/sitemap.xml.ts:29-39 | each page's English and Vietnamese `loc` are the site URL plus the translated path |
| WaitlistForm.IndexOf | src/scripts/form-handler.ts:48 | the first position of a character |
| WaitlistForm.ValidateEmail | src/scripts/form-handler.ts:47-50 | `validateEmail`: an `@` that is not the first character, no white space or second `@` on either side, and a `.` with at least one character on each side in the domain part |
| WaitlistForm.AllPlainSlice | src/scripts/form-handler.ts:48 | a slice of a `[^\s@]` run is such a run |
| WaitlistForm.ValidatedEmailMatches | src/scripts/form-handler.ts:47-50 | every accepted address matches the regular expression |
| WaitlistForm.MatchingEmailValidated | src/scripts/form-handler.ts:47-50 | every address the regular expression matches is accepted |
| WaitlistForm.ValidateEmailMatchesPattern | src/scripts/form-handler.ts:47-50 | accepted exactly when the regular expression matches |
| WaitlistForm.EmailRejections | src/scripts/form-handler.ts:48 | white space, no `@`, or two `@` make an address invalid |
| WaitlistForm.ValidateForm | src/scripts/form-handler.ts:52-75 | each error field is set exactly when its own check fails; valid exactly when none fails |
| WaitlistForm.NameCheck | src/scripts/form-handler.ts:55 | a name with two non-blank characters passes |
| WaitlistForm.BlankNameInvalid | src/scripts/form-handler.ts:55 | a blank name fails |
| WaitlistForm.EmailInvalidIff | src/scripts/form-handler.ts:59 | the e-mail error is set exactly when the pattern does not match |
| WaitlistForm.MessageLimit | src/scripts/form-handler.ts:67 | a message of 500 characters passes and 501 fails; no message passes |
| Text.SplitFields | src/i18n/index.ts:11 | `split` field 0 is the text before the first separator, and further fields exist only after one |
| Text.Split | src/i18n/index.ts:11 | `split` with a one-character separator: the fields between separators, at least one |
| Text.Trim | src/scripts/form-handler.ts:55 | `trim` returns the slice of the string left after removing the leading and trailing white space: it is empty only for blank strings, otherwise it starts and ends with non-blank characters, and everything cut off is white space |
| Text.IntRoundTrip | src/data/guides/flowchart.ts:270-273 | integers print in a form that reads back to the same integer |
| Flowchart.HalfTextValue | src/data/guides/flowchart.ts:271-272 | `(from.y + to.y) / 2` prints as the exact half: a whole number, or a signed whole part followed by `.5` |
| Flowchart.GeneratePath | src/data/guides/flowchart.ts:270-273 | `generatePath`: a cubic curve from 25 px below the start to 25 px above the end, with both control points at the middle height |
| Flowchart.FirstIndex | src/data/guides/flowchart.ts:700-702 | the index of the first element satisfying the test, or none when no element does |
| Flowchart.NodeIndex | src/data/guides/flowchart.ts:35-267 | the first node with the id, or none when no node has it |
| Flowchart.EdgeIndex | src/data/guides/flowchart.ts:275-519 | the first edge with the id, or none when no edge has it |
| Flowchart.CommandIndex | src/data/guides/flowchart.ts:700-702 | `find`: the first path with the command, or none when no path has it |
| Flowchart.CommandIndexOfUnique | src/data/guides/flowchart.ts:700-702 | with unique commands, each path's command finds that path |
| Flowchart.GetPathByCommand | src/data/guides/flowchart.ts:700-702 | a found path is in the table with that command; none exactly when no path has it |
| Flowchart.Filter | src/data/guides/flowchart.ts:705-712 | `filter` keeps exactly the elements that satisfy the test |
| Flowchart.FilterAppend | src/data/guides/flowchart.ts:705-712 | filtering keeps the table order |
| Flowchart.GetPathsContainingNode | src/data/guides/flowchart.ts:705-707 | exactly the table paths that include the node |
| Flowchart.GetPathsContainingEdge | src/data/guides/flowchart.ts:710-712 | exactly the table paths that include the edge |
| Flowchart.PositionOf | src/data/guides/flowchart.ts:35-267 | a position exactly for ids of table nodes, and it is such a node's position |
| FlowchartIntegrity.NodeIdsUnique | src/data/guides/flowchart.ts:35-267 | node ids are pairwise distinct |
| FlowchartIntegrity.EdgeIdsUnique | src/data/guides/flowchart.ts:275-519 | edge ids are pairwise distinct |
| FlowchartIntegrity.PathIdsUnique | src/data/guides/flowchart.ts:522-689 | path ids are pairwise distinct |
| FlowchartIntegrity.PathCommandsUnique | src/data/guides/flowchart.ts:522-689 | path commands are pairwise distinct |
| FlowchartIntegrity.NodeIndexOfTableNode | src/data/guides/flowchart.ts:35-267 | each node is the one its id finds |
| FlowchartIntegrity.EdgeIndexOfTableEdge | src/data/guides/flowchart.ts:275-519 | each edge is the one its id finds |
| FlowchartIntegrity.PathByTableCommand | src/data/guides/flowchart.ts:522-702 | `getPathByCommand` returns the path for each of the table's commands |
| FlowchartIntegrity.EdgesConnectNodes | src/data/guides/flowchart.ts:35-519 | every edge joins two existing nodes, its path is `generatePath` between their positions, and the middle height is whole |
| FlowchartIntegrity.EdgeEndsFound | src/data/guides/flowchart.ts:35-519 | the nodes an edge names sit at the points it is drawn between |
| FlowchartIntegrity.EdgeMidHeights | src/data/guides/flowchart.ts:275-519 | each edge's end heights have an even sum |
| FlowchartIntegrity.PathsAreChains | src/data/guides/flowchart.ts:275-689 | every path has one node more than edges, and its i-th edge exists and goes from its i-th node to the next |
| FlowchartIntegrity.PathNodesExist | src/data/guides/flowchart.ts:35-689 | every node a path names exists |
| FlowchartIntegrity.PathNodeFound | src/data/guides/flowchart.ts:35-689 | a path's i-th node exists |
| FlowchartIntegrity.PathColorsKnown | src/data/guides/flowchart.ts:522-771 | every path colour is a key of `pathColors` |
| ThemeToggle.ThemePage.constructor | src/scripts/theme-toggle.ts:1-4 | a fresh document has no `dark` class and no handlers, and keeps stored data |
| ThemeToggle.ThemePage.Init | src/scripts/theme-toggle.ts:1-39 | adds `dark` by the load rule and never removes it; never writes storage; registers both handlers only when the button exists |
| ThemeToggle.ThemePage.Click | src/scripts/theme-toggle.ts:15-26 | every registered click handler runs once, in turn |
| ThemeToggle.ThemePage.SystemChange | src/scripts/theme-toggle.ts:29-38 | every registered change handler runs once, in turn |
| ThemeToggle.ThemePage.Reload | src/scripts/theme-toggle.ts:3-9 | a reloaded page starts dark exactly by the load rule over the same storage |
| ThemeToggle.StartsDark | src/scripts/theme-toggle.ts:7 | the load rule: dark when `dark` is stored, or when nothing truthy is stored and the system prefers dark |
| ThemeToggle.Toggle | src/scripts/theme-toggle.ts:15-26 | one click handler run: removes `dark` and stores `light`, or adds `dark` and stores `dark` |
| ThemeToggle.FollowSystem | src/scripts/theme-toggle.ts:29-38 | one change handler run: with nothing truthy stored the class follows `matches`, otherwise nothing changes |
| ThemeToggle.ToggleFlips | src/scripts/theme-toggle.ts:15-26 | a click flips the class and stores the new state's name |
| ThemeToggle.ToggleParity | src/scripts/theme-toggle.ts:15-26 | after n handler runs the class has flipped n times, and storage names the state |
| ThemeToggle.FourClicksRestore | test-theme-toggle-automated.js:279-317 | each of four clicks changes the state, and the fourth restores it |
| ThemeToggle.DoubleRegistrationCancels | src/scripts/theme-toggle.ts:12-26 | with the click handler registered twice, a click leaves the class as it was |
| ThemeToggle.FollowSystemOnce | src/scripts/theme-toggle.ts:29-38 | repeated change handlers act as one |
| ThemeToggle.SystemChangeRule | src/scripts/theme-toggle.ts:29-38 | with nothing stored the class follows the system; with a stored choice nothing changes; storage is never written |
| ThemeToggle.ClickedThemeIgnoresSystem | src/scripts/theme-toggle.ts:15-38 | after any click, system changes are ignored |
| ThemeToggle.StoredChoiceWins | src/scripts/theme-toggle.ts:7 | a stored `light` or `dark` decides on load, whatever the system prefers |
| ThemeToggle.ReloadKeepsClickedTheme | test-theme-toggle-automated.js:238-277 | reloading after a click reproduces the clicked state |
| ThemeToggle.UnsetDarkSystemScenario | src/scripts/theme-toggle.ts:3-26 | nothing stored and a dark system: dark at load, light with `light` stored after a click, and light after reload |
| ThemeToggle.StorageHoldsThemeNames | src/scripts/theme-toggle.ts:19-25 | after any events storage holds what it held at load, `light` or `dark` |
| NavHighlight.SelectActive | src/scripts/nav-scroll-highlight.ts:45-56 | the scan returns `ActiveId`: the id of the last qualifying section, else `hero` |
| NavHighlight.ActiveId | src/scripts/nav-scroll-highlight.ts:45-56 | the id of the last section in document order whose top is at most 150 px and whose id is not empty, else `hero` |
| NavHighlight.NoQualifyingSectionIsHero | src/scripts/nav-scroll-highlight.ts:46-56 | with no section at most 150 px down and with an id, the active id is `hero` |
| NavHighlight.LastQualifyingSectionWins | src/scripts/nav-scroll-highlight.ts:48-56 | otherwise it is the id of the last qualifying section in document order |
| NavHighlight.ActiveIdOrigin | src/scripts/nav-scroll-highlight.ts:46-56 | the active id is `hero` or the id of a qualifying section |
| NavHighlight.LaterSectionBeatsHigherTop | src/scripts/nav-scroll-highlight.ts:48-56 | document order decides, not the largest top |
| NavHighlight.NavLink.constructor | src/scripts/nav-scroll-highlight.ts:4-5 | a link with its `href` and classes |
| NavHighlight.Marked | src/scripts/nav-scroll-highlight.ts:58-65 | a link's classes after one update: `active` removed, `nav-link` added, and `active` added back when the `href` is `#` + id |
| NavHighlight.MarkedClasses | src/scripts/nav-scroll-highlight.ts:58-74 | after an update a link has `nav-link`, has `active` exactly when its `href` is `#` + id, and keeps every other class |
| NavHighlight.MarkedIdempotent | src/scripts/nav-scroll-highlight.ts:58-74 | updating twice for one id is updating once |
| NavHighlight.MarkedOverrides | src/scripts/nav-scroll-highlight.ts:14-31 | a later update overrides an earlier one |
| NavHighlight.MarkLinks | src/scripts/nav-scroll-highlight.ts:58-65 | every link of the list is updated, even one listed twice |
| NavHighlight.LastIntersectingFound | src/scripts/nav-scroll-highlight.ts:9-10 | the last intersecting entry has no intersecting entry after it; there is none only when no entry intersects |
| NavHighlight.NavHighlighter.constructor | src/scripts/nav-scroll-highlight.ts:1-93 | the initial update runs, and no frame is pending |
| NavHighlight.NavHighlighter.UpdateActive | src/scripts/nav-scroll-highlight.ts:45-75 | desktop and mobile links are both updated by the same rule for `ActiveId` |
| NavHighlight.NavHighlighter.MarkBoth | src/scripts/nav-scroll-highlight.ts:58-74 | both lists are updated, including a link that is in both |
| NavHighlight.NavHighlighter.Observe | src/scripts/nav-scroll-highlight.ts:8-33 | the last intersecting entry decides every link's classes; with none, nothing changes |
| NavHighlight.NavHighlighter.OnScroll | src/scripts/nav-scroll-highlight.ts:79-87 | a scroll while `ticking` requests nothing, else one frame; at most one frame is pending |
| NavHighlight.NavHighlighter.RunFrame | src/scripts/nav-scroll-highlight.ts:81-84 | the frame updates the links and clears `ticking`; none is then pending |

## Left out

- `submitWaitlistForm` (src/scripts/form-handler.ts:13-45) is network I/O through `fetch`, with an environment variable; it is not modelled.
- `src/scripts/smooth-scroll.ts`, `src/scripts/intersection-observer.ts` and `src/pages/robots.txt.ts` are not part of this model.
- The `Response` headers of the sitemap endpoint are not modelled; only its body is.
- The date of `new Date().toISOString()` is a parameter, and so is `PUBLIC_SITE_URL`.
- The translation tables `en` and `vi` are not part of this model: `Translations.T` takes them as parameters.
- Browser APIs are not called. `localStorage` and the root element's `dark` class are fields. `matchMedia` results, section positions and intersection entries are parameters. `requestAnimationFrame` is a count of pending frames, and the frame runs when `RunFrame` is called.
- Observer options (`threshold`, `rootMargin`) and the decision which entries intersect belong to the browser; entries arrive as input.
- Sitemap.ScaledPriority: gives `(Number(p) * 0.9).toFixed(1)` as exact decimal rounding of tenths, not binary floating point. The two agree on the four table priorities (`Sitemap.PriorityValues`); other inputs are not claimed.
- Flowchart: an edge keeps the two points its `path` was generated from, and `path()` computes the string. Node labels and descriptions are kept as data; their wording is not checked.
- NavHighlight.NavLink: a class list is a set, so token order and duplicate tokens are not modelled. A section's top is a real number rather than a binary floating-point value.
- ThemeToggle.ThemePage: only the `dark` class of the root element is modelled, not its other classes. A stored value is any string or none; storage errors (private mode, quota) are not modelled.
- Text: JavaScript strings are UTF-16 code-unit sequences. Here they are sequences of characters, and `\s` and `trim` use the white-space set in `Text.IsWhitespace`.

## Findings

| source | as written | input that shows it | evidently intended | confidence | as-written member | corrected member |
|---|---|---|---|---|---|---|
| src/i18n/index.ts:12 | `lang in languages` also accepts names inherited from `Object.prototype`, and `getLangFromUrl` returns such a name as a `Language` | `/toString/guides` returns `"toString"`, which is neither `en` nor `vi` | only the object's own keys `en` and `vi` are languages; any other first segment gives `en` | high (not executed) | I18n.GetLangCodeAsWritten, I18n.PrototypeNameAccepted | I18n.GetLangFromUrl |
