# Portfolio site: video links, gallery paging and UI state, in Dafny

This project models the logic of a personal video-portfolio website (a Next.js
site whose projects live in a hosted `projects` table) and proves properties of
that model. It covers:

- **Video identifiers** (`components/VideoEmbed.tsx`): `extractVideoId` turns a
  YouTube, TikTok or Instagram URL into the video's identifier with regular
  expressions, `isYouTubeShorts` tests for `/shorts/`, and the component renders
  an "Invalid video URL" box, a YouTube iframe, a TikTok quote with the user's
  profile link, or an Instagram quote from that identifier. The regular
  expressions are modelled by a small matcher (module `RegExpMatch`) with
  JavaScript's `String.prototype.match` semantics: the leftmost position wins,
  alternatives are tried in order, `{11}` takes exactly eleven characters, `+`
  takes the longest run, and the result is the first capture group. For
  alternatives none of which is a prefix of another, which all six patterns
  satisfy (`VideoEmbed.PatternsArePrefixFree`), the matcher is proved equal to
  a search-free description of those semantics; there at most one alternative
  occurs at a position, so their order never decides.
- **The gallery modal** (`components/PlatformModal.tsx`): five projects per page,
  `ceil(n/5)` pages, the slice shown for a page, `goToPage`'s clamping, the
  previous/next/number buttons, the header caption, and the modal's state
  (platform, projects, loading flag, error, current page) as the class
  `PlatformModal.Gallery`, whose events are a platform change, the completion of
  the fetch, and a page request.
- **Small UI state machines**: the two-tap social icons of the About section
  (`components/AboutMe.tsx`, class `AboutMe.IconTapper`), the platform cards of the
  portfolio section that open the modal (`components/Portfolio.tsx`, class
  `Portfolio.PortfolioSection`, which owns the modal), and the platform cards of
  the showcase section (`components/PlatformShowcase.tsx`, class
  `PlatformShowcase.Showcase`).
- **The `.env.local` loader** of `scripts/test-db-connection.ts`: each line is cut
  at its first `=`, trimmed, and written into the process environment, later
  lines winning (class `EnvLoader.ProcessEnv`, whose `LoadEnv` is a loop over
  the lines proved against the fold `ApplyEntries`). An empty name is not
  stored: Node's environment setter passes the name to `setenv`, which refuses
  it, and ignores the refusal.

Helper modules: `Wrappers` (an `Option` type for JavaScript's `null`, `Min`,
`Max`, truthiness of a nullable string), `JsStrings` (`includes`, `split` and
`join` on one character, `trim` with JavaScript's whitespace set) and `Projects`
(the `Project` row type of `lib/supabase.ts` and the order the gallery query
requests).

Strings are Dafny `string`s (sequences of characters). Reading the file, the
database query, the clock and `window.open` are not called: the file contents,
the query's outcome, the window width and timer events are parameters of the
methods, and a link opened in a new tab is a method result.

## Model

| member | source | states |
|---|---|---|
| `JsStrings.Includes` | components/VideoEmbed.tsx:13 | `s.includes(lit)` holds iff `lit` occurs in `s` at some position |
| `JsStrings.Split` | scripts/test-db-connection.ts:13-14 | `split` on one character never returns an empty list and no piece contains the separator |
| `JsStrings.SplitAtFirst` | scripts/test-db-connection.ts:14 | splitting cuts at the first separator: the first piece is the text before it, the rest is the split of what follows |
| `JsStrings.JoinSplit` | scripts/test-db-connection.ts:14-16 | `join` with the separator undoes `split`: the pieces join back into the original string |
| `JsStrings.Join` | scripts/test-db-connection.ts:16 | `join` starts with the first piece, followed by the separator when more pieces follow; no pieces join to the empty string |
| `JsStrings.Trim` | scripts/test-db-connection.ts:16 | `trim()` is the part of the string after its leading whitespace: every character outside it is JavaScript whitespace, and it neither starts nor ends with whitespace |
| `JsStrings.TrimUnpadded` | scripts/test-db-connection.ts:16 | a string that neither starts nor ends with whitespace is its own trim |
| `JsStrings.TrimDropsTrailingSpace` | scripts/test-db-connection.ts:16 | a trailing whitespace character such as the `\r` of a Windows line ending is removed from an unpadded string |
| `RegExpMatch.RunLength` | components/VideoEmbed.tsx:45 | the run of class characters from a position is maximal: all inside are in the class, the next one is not |
| `RegExpMatch.GroupAt` | components/VideoEmbed.tsx:26-28 | the capture group succeeds iff enough class characters follow, and then captures exactly `{n}` characters or the longest `+` run |
| `RegExpMatch.Leftmost` | components/VideoEmbed.tsx:31 | the position returned matches and no earlier position does |
| `RegExpMatch.Match` | components/VideoEmbed.tsx:31-32 | `url.match(p)` with group 1 taken: any capture has the pattern's class and length |
| `RegExpMatch.MatchIsLeftmost` | components/VideoEmbed.tsx:31-32 | the capture is the group's capture right after the leftmost alternative occurrence that the group can follow |
| `RegExpMatch.MatchNoneIff` | components/VideoEmbed.tsx:31-32 | `match` returns `null` iff no alternative followed by a possible group occurs anywhere |
| `RegExpMatch.AlternativesAtFound` | components/VideoEmbed.tsx:27 | at one position the alternatives are tried in order, and the one that occurs there decides the capture |
| `RegExpMatch.FirstAnchorAfter` | components/VideoEmbed.tsx:31 | in `pre + a + rest`, when no alternative starts with a character of `pre`, the leftmost match is `a` right after `pre` |
| `RegExpMatch.GreedyCaptureUnique` | components/VideoEmbed.tsx:38 | a greedy `+` capture at a position is unique: the whole run |
| `VideoEmbed.IsYouTubeShorts` | components/VideoEmbed.tsx:12-14 | true iff the URL contains `/shorts/` |
| `VideoEmbed.FirstMatching` | components/VideoEmbed.tsx:30-33 | the first pattern that matches anywhere decides: the result is pattern `k`'s match and every pattern before `k` finds nothing; `null` iff none of them matches |
| `VideoEmbed.ExtractVideoId` | components/VideoEmbed.tsx:17-53 | an unknown platform gives `null`; a YouTube identifier has 11 characters of `[A-Za-z0-9_-]`, a TikTok one at least one digit, an Instagram one at least one `[A-Za-z0-9_-]` |
| `VideoEmbed.PatternsArePrefixFree` | components/VideoEmbed.tsx:26-28 | no alternative literal of any pattern is a prefix of another, so at most one occurs at a position |
| `VideoEmbed.YouTubeShortsFirst` | components/VideoEmbed.tsx:25-33 | a Shorts link anywhere wins, and the identifier is the 11 characters after the leftmost `youtube.com/shorts/` |
| `VideoEmbed.YouTubeWatchSecond` | components/VideoEmbed.tsx:27-33 | without a Shorts link, the 11 characters after the leftmost watch, `youtu.be` or embed prefix that they can follow |
| `VideoEmbed.YouTubeParamThird` | components/VideoEmbed.tsx:28-33 | without either, the 11 characters after the leftmost `?v=` or `&v=` that they can follow |
| `VideoEmbed.YouTubeNotFound` | components/VideoEmbed.tsx:25-34 | a YouTube URL gives `null` iff none of the three patterns occurs |
| `VideoEmbed.TikTokId` | components/VideoEmbed.tsx:36-40 | the whole digit run after the leftmost `video/` that is followed by a digit |
| `VideoEmbed.TikTokNotFound` | components/VideoEmbed.tsx:36-40 | a TikTok URL gives `null` iff no `video/` is followed by a digit |
| `VideoEmbed.InstagramId` | components/VideoEmbed.tsx:42-47 | the whole `[A-Za-z0-9_-]` run after the leftmost `reel/` or `p/` that is followed by one |
| `VideoEmbed.InstagramNotFound` | components/VideoEmbed.tsx:42-47 | an Instagram URL gives `null` iff no `reel/` or `p/` is followed by an id character |
| `VideoEmbed.ShortsMatchIsShortsUrl` | components/VideoEmbed.tsx:12-14 | a URL matched by the Shorts pattern is also shown vertically |
| `VideoEmbed.TikTokUsername` | components/VideoEmbed.tsx:131-132 | the user name is never empty and never contains `/` |
| `VideoEmbed.TikTokUsernameFound` | components/VideoEmbed.tsx:131-132 | it is the whole non-`/` run after the leftmost `@` that has one |
| `VideoEmbed.TikTokUsernameDefault` | components/VideoEmbed.tsx:131-132 | without such an `@` it is `user` |
| `VideoEmbed.Render` | components/VideoEmbed.tsx:90-165 | "Invalid video URL" iff there is no identifier; the YouTube frame is vertical iff the URL is a Shorts URL; the TikTok quote cites the URL |
| `VideoEmbed.EmbedCarriesId` | components/VideoEmbed.tsx:112-162 | the YouTube address is `https://www.youtube.com/embed/` + id, the TikTok quote carries the id and the profile link `https://www.tiktok.com/@` + the extracted user name, the Instagram permalink is `https://www.instagram.com/reel/` + id + `/`; the id reads back from each |
| `VideoEmbed.ShortsAfterPrefix` | components/VideoEmbed.tsx:12-33 | a Shorts link after any prefix without a `y` gives its 11-character id, whatever `?v=` or `&v=` parameters the prefix holds, and the URL counts as Shorts |
| `VideoEmbed.ShortsUrlExample` | components/VideoEmbed.tsx:24-26 | `https://www.youtube.com/shorts/<id>` gives `<id>` and counts as a Shorts URL |
| `VideoEmbed.ShortsBeatsEarlierParamExample` | components/VideoEmbed.tsx:25-33 | a Shorts link wins over a `?v=` parameter that comes earlier in the URL |
| `VideoEmbed.ShortLinkIsNotShorts` | components/VideoEmbed.tsx:12-14 | `https://youtu.be/<run>` contains no `/shorts/` |
| `VideoEmbed.ShortLinkExample` | components/VideoEmbed.tsx:22-112 | `https://youtu.be/<run>` gives the first 11 characters of a longer id run and renders the embed of that id in the horizontal frame |
| `VideoEmbed.TikTokUrlExample` | components/VideoEmbed.tsx:37-39 | `https://www.tiktok.com/@<user>/video/<digits>` gives `<digits>`, for every user name without `/` |
| `VideoEmbed.TikTokUserExample` | components/VideoEmbed.tsx:128-143 | the same URL renders a quote citing it, for video `<digits>`, whose profile link is `https://www.tiktok.com/@<user>` |
| `VideoEmbed.TikTokProfileExample` | components/VideoEmbed.tsx:38-39 | a profile URL without `video/` has no identifier |
| `VideoEmbed.InstagramUrlExample` | components/VideoEmbed.tsx:43-46 | `/reel/<id>/` and `/p/<id>/` URLs both give `<id>`, and both embed through `/reel/<id>/` |
| `PlatformModal.TotalPages` | components/PlatformModal.tsx:9 | `ceil(n/5)`: the fewest pages of five that hold all projects; zero only for no projects |
| `PlatformModal.SliceBound` | components/PlatformModal.tsx:107 | a `slice` bound inside the sequence is kept as is, a bound past the end becomes the length of the sequence, a negative one counts from the end and stops at 0; every bound lands inside the sequence |
| `PlatformModal.Slice` | components/PlatformModal.tsx:107 | `slice` keeps the elements from the normalised start up to the normalised end, in order, and none when that range is inverted |
| `PlatformModal.PageSlice` | components/PlatformModal.tsx:104-107 | page `p` shows at most five projects, exactly those from index `(p-1)*5` up to the end of the list or five further |
| `PlatformModal.ClampPage` | components/PlatformModal.tsx:109-111 | the page reached is in `1..max(1, totalPages)`, is the request itself when that is a page, 1 below, the last page above |
| `PlatformModal.PageButtons` | components/PlatformModal.tsx:216 | the numbered buttons are `1..totalPages` in order |
| `PlatformModal.HeaderCaption` | components/PlatformModal.tsx:149-150 | "video" is singular iff the count is 1, and the page indicator appears iff there are more than five projects |
| `PlatformModal.TwelveProjects` | components/PlatformModal.tsx:104-107 | twelve projects make three pages: five on the first, two on the third, none on the fourth |
| `PlatformModal.ClampExamples` | components/PlatformModal.tsx:109-111 | with three pages 99 gives 3 and -5 gives 1; with no pages every request gives 1 |
| `PlatformModal.PageNonEmptyIff` | components/PlatformModal.tsx:104-107 | a page shows something iff it is at most `totalPages` |
| `PlatformModal.PagesArePrefix` | components/PlatformModal.tsx:104-107 | the first `k` pages laid end to end are the first `min(5k, n)` projects |
| `PlatformModal.PagesCoverAll` | components/PlatformModal.tsx:104-107 | all pages laid end to end are exactly the projects, in order, so each project is on exactly one page |
| `PlatformModal.PageOfIndex` | components/PlatformModal.tsx:104-107 | project `i` is on page `i/5 + 1`, which exists, at position `i mod 5` |
| `PlatformModal.PagesInOrder` | components/PlatformModal.tsx:60-61 | when the projects come in the query's order (year newest first, then `order_index`), everything on an earlier page comes before everything on a later one |
| `PlatformModal.PrevDisabled` | components/PlatformModal.tsx:208-209 | on a page of the gallery, the previous button is disabled iff `goToPage(currentPage - 1)` would stay put |
| `PlatformModal.NextDisabled` | components/PlatformModal.tsx:231-233 | on a page of the gallery, the next button is disabled iff `goToPage(currentPage + 1)` would stay put |
| `PlatformModal.PageButtonsAreThePages` | components/PlatformModal.tsx:216-219 | the numbered buttons are exactly the pages `goToPage` can land on, each leading to itself |
| `PlatformModal.Gallery.constructor` | components/PlatformModal.tsx:38-77 | on mounting the page is 1, there are no projects, and a fetch is running iff a platform is given |
| `PlatformModal.Gallery.SetPlatform` | components/PlatformModal.tsx:43-55 | only a change of platform has an effect: the page goes back to 1 and, for a platform, `loading` is set and the error cleared; projects stay until the fetch completes |
| `PlatformModal.Gallery.CompleteFetch` | components/PlatformModal.tsx:56-73 | `loading` is always cleared; a query error stores its message and keeps the projects; rows replace the projects, `null` rows by `[]`; a throw stores "Failed to load projects" |
| `PlatformModal.Gallery.GoToPage` | components/PlatformModal.tsx:109-111 | the new page is `ClampPage(page, totalPages)` and nothing else changes; the current page stays a page of the gallery |
| `PlatformModal.Gallery.Render` | components/PlatformModal.tsx:98-240 | nothing without a platform; spinner iff loading; an error line iff the error is a non-empty string, showing that error; main content only when neither; "No projects yet for <platform>" iff neither and the list is empty, the grid iff neither and the list is non-empty, showing the current page's slice with the previous arrow, the numbered buttons and the next arrow of that page; the title is `<platform> Projects` and the caption is `HeaderCaption` of the count and the current page |
| `PlatformModal.Gallery.ExactlyOnePanel` | components/PlatformModal.tsx:166-184 | in every reachable state exactly one of spinner, error line and main content shows, and a shown grid is never empty |
| `AboutMe.IconTapper.constructor` | components/AboutMe.tsx:13-14 | no icon is lit and no timer is pending |
| `AboutMe.IconTapper.AtMostOnePending` | components/AboutMe.tsx:31-39 | at most one reset timer is pending, the one the ref names |
| `AboutMe.IconTapper.Tap` | components/AboutMe.tsx:16-44 | desktop: opens the link, nothing changes; phone on the lit icon: opens the link and clears the light, timer left alone; phone otherwise: lights the icon, opens nothing, cancels the old timer and schedules exactly one new one |
| `AboutMe.IconTapper.ResetTimerFires` | components/AboutMe.tsx:37-39 | the pending timer firing clears the light and leaves no timer pending |
| `AboutMe.DesktopTapOpens` | components/AboutMe.tsx:40-43 | on a desktop the first tap opens the link |
| `AboutMe.MobileDoubleTap` | components/AboutMe.tsx:20-29 | on a phone the first tap opens nothing and the second tap on the same icon opens its link |
| `AboutMe.MobileSwitchIcon` | components/AboutMe.tsx:20-39 | tapping another icon moves the light to it and opens nothing, and going back to the first icon lights it again and opens nothing either |
| `AboutMe.MobileTapAfterReset` | components/AboutMe.tsx:37-39 | after the reset timer fires, the next tap is a first tap again |
| `Portfolio.ParsePlatform` | components/Portfolio.tsx:42 | a platform comes out iff the string is `youtube`, `tiktok` or `instagram` |
| `Portfolio.ParsePlatformNames` | components/Portfolio.tsx:42-43 | the accepted strings are exactly the platforms' names, each read as its own platform |
| `Portfolio.EveryCardIsAPlatform` | components/Portfolio.tsx:10-35 | every card of the grid passes an accepted identifier, naming its platform |
| `Portfolio.PortfolioSection.constructor` | components/Portfolio.tsx:38 | nothing selected, and the modal mounted closed and idle |
| `Portfolio.PortfolioSection.HandlePlatformClick` | components/Portfolio.tsx:40-45 | an accepted identifier selects exactly that platform and restarts the modal's gallery when it changes; any other string changes nothing; the modal always shows the selection |
| `Portfolio.PortfolioSection.Close` | components/Portfolio.tsx:121-124 | closing deselects and the modal renders nothing; a modal that was open goes back to page 1, and its projects, loading flag and error stay |
| `Portfolio.ClickOpensGallery` | components/Portfolio.tsx:40-45 | clicking a card opens the modal on that platform, loading, at page 1 |
| `PlatformShowcase.Showcase.constructor` | components/PlatformShowcase.tsx:41-42 | nothing selected, nothing hovered |
| `PlatformShowcase.Showcase.ClickCard` | components/PlatformShowcase.tsx:84 | clicking the selected card deselects it; clicking any other card selects it; hover is untouched |
| `PlatformShowcase.Showcase.MouseEnter` | components/PlatformShowcase.tsx:82 | the hovered card becomes the one entered; selection untouched |
| `PlatformShowcase.Showcase.MouseLeave` | components/PlatformShowcase.tsx:83 | nothing is hovered; selection untouched |
| `PlatformShowcase.Showcase.LeavePanel` | components/PlatformShowcase.tsx:162 | leaving the panel deselects and hides the panel; hover untouched |
| `PlatformShowcase.Showcase.PanelTitle` | components/PlatformShowcase.tsx:156-172 | a title exists iff the panel is shown, and names the selected platform |
| `PlatformShowcase.Showcase.Card` | components/PlatformShowcase.tsx:94-138 | a card has the gradient and the hint iff it is selected, and glows iff it is hovered |
| `PlatformShowcase.Showcase.PanelIffSelected` | components/PlatformShowcase.tsx:6-25 | the panel is shown iff something is selected, and then exactly one card is marked |
| `PlatformShowcase.ClickTwice` | components/PlatformShowcase.tsx:84 | clicking a card opens the panel, clicking it again closes it, whatever the hover |
| `PlatformShowcase.SwitchCards` | components/PlatformShowcase.tsx:84 | clicking another card while one is open switches the panel to it |
| `EnvLoader.KeyAndValueParts` | scripts/test-db-connection.ts:14-16 | the key is the text before the first `=`, and the value parts join back into everything after it |
| `EnvLoader.LineEntry` | scripts/test-db-connection.ts:14-16 | the key and value of a line's entry are trimmed: neither starts nor ends with JavaScript whitespace |
| `EnvLoader.LineEntrySpec` | scripts/test-db-connection.ts:14-16 | a line counts iff it has an `=` that is not its first character; key and value are the trimmed text before and after the first `=` |
| `EnvLoader.BlankKeyNotStored` | scripts/test-db-connection.ts:15-16 | a key of spaces only passes the untrimmed check; its entry has the empty key, and writing it leaves the environment unchanged |
| `EnvLoader.CarriageReturnDropped` | scripts/test-db-connection.ts:13-16 | `KEY=VALUE\r` is read as `KEY` and `VALUE`, even when the value holds `=` |
| `EnvLoader.UnmentionedKeyKept` | scripts/test-db-connection.ts:13-18 | a key no line sets (no line has an entry for it, or it is empty) keeps its previous value, or stays absent |
| `EnvLoader.LastLineWins` | scripts/test-db-connection.ts:13-18 | the last line with an entry for a non-empty key decides its value |
| `EnvLoader.LineEntries` | scripts/test-db-connection.ts:13-14 | one entry per line of the file, in order, each that line's `LineEntry` |
| `EnvLoader.ApplyEntry` | scripts/test-db-connection.ts:16 | an entry with a non-empty key sets that key to its value; no entry, or an empty key, leaves the environment as it is |
| `EnvLoader.ApplyEntries` | scripts/test-db-connection.ts:13-18 | applying the lines' entries never removes a variable, and every variable it adds is set by some entry |
| `EnvLoader.ProcessEnv.LoadEnv` | scripts/test-db-connection.ts:9-22 | an unreadable file leaves the environment unchanged; otherwise the lines' entries are written in, in order (`ApplyEntries` of `LineEntries`) |

## Left out

- Animation, layout and styling: framer-motion properties, the scroll-driven scale and opacity in `AboutMe`, the other sections of the page. They are floating-point presentation with nothing to prove.
- The script tags that `VideoEmbed` adds and removes for the TikTok and Instagram embeds: DOM side effects.
- The body scroll lock and the Escape-key listener of the modal: browser plumbing.
- The database client and query: the fetch is modelled by its outcome (`FetchOutcome`), and the rows' order is a precondition of `PlatformModal.PagesInOrder`, since the gallery itself does no sorting.
- `PlatformModal.Gallery.CompleteFetch`: requires a fetch to be running; overlapping fetches whose answers arrive out of order (a stale answer for a platform no longer shown) are a concurrency concern and are not modelled.
- `PlatformModal.Gallery.GoToPage`: requires that loading is over, because the page buttons exist only then; a `goToPage` issued while loading is not modelled.
- `PlatformModal.PageSlice`: its contract speaks only of pages from 1 up; the current page never drops below 1, and `Slice` models what `slice` does for the unreachable negative bounds.
- `PlatformModal.HeaderCaption`: the caption is a structure (count, plural flag, page indicator), not the rendered text; number formatting and the separator glyph, which the source file stores in a mis-encoded form, are not modelled.
- `AboutMe.IconTapper.Tap`: time is abstract: the two-second delay of the reset timer is not modelled, and a timer firing is the separate event `ResetTimerFires`, allowed at any point after it is scheduled. React's batching of `setActiveIcon` within one handler is treated as atomic.
- `PlatformShowcase.Showcase.ClickCard` and `PlatformShowcase.Showcase.MouseEnter`: require a card's name, since only the three cards have these handlers.
- `window.open` is a result of `Tap`, not a call; the new tab and its `noopener` options are not modelled.
- The rest of `scripts/test-db-connection.ts` (console output, `process.exit`, the connection test) and the path of the file: only the line parser and its effect on the environment are modelled, with the file read as an input.
- `VideoEmbed.ExtractVideoId`: the regular expressions run over Dafny characters, not UTF-16 code units; `[^/]` and the length bound differ only on characters outside the Basic Multilingual Plane. The `try`/`catch` returns `null` on an exception, and nothing in the model can throw.
- The YouTube and Instagram embed markup (iframe attributes, `data-instgrm-version`, styles) beyond the addresses built from the identifier.
- `EnvLoader.ApplyEntry`: of the names `setenv` refuses, only the empty one is modelled; a name holding a NUL character, which the C string would cut short, is not, and a name holding `=` cannot arise since the key ends at the first `=`.
