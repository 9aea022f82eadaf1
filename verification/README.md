# LUNICAR, modelled in Dafny

LUNICAR is a used-car trade-in site: an Express server with a JSON store, and a few page scripts. This project models the sequential logic underneath the routing and the DOM writes, and proves what that logic promises.

- **Plates** (`plate.dfy`, module `Plate`). A French licence plate is normalised to upper-case letters and digits. It is accepted in the current format (AA-123-AA) or the legacy one (1-4 digits, 2-3 letters, 2 digits). Three places check or format it:
  - the server's validation endpoint;
  - the home page's `validatePlaque`/`formatPlaque`;
  - the fixed-slice `formatPlaque` of the city and theme landing pages.
- **Admin access** (`admin.dfy`, module `AdminAuth`). A class holds the session map (token to last activity, sliding one-hour expiry) and the login-attempt map (IP to count and lockout). It has the rate limiter, the login route, the bearer-token middleware and the minute sweep.
- **Content store** (`article_store.dfy`, `slug.dfy`):
  - slug generation from a title;
  - reading time;
  - article create / update / delete;
  - trade-in leads and contact messages, prepended to their lists.
- **Article list page** (`article_list.dfy`):
  - the ten-per-page slice and the pager window;
  - category filters and truncation;
  - the "popular" column and the ItemList schema;
  - the page state as a class.
- **Single article page** (`article_page.dfy`):
  - title and description fallbacks and the schema dates;
  - tags;
  - related and sidebar selections;
  - the table of contents.
- **French dates** (`french_date.dfy`). The two copies of `formatDateISO`, plus a corrected conversion (see Findings).
- **Trade-in wizard** (`reprise.dfy`):
  - the four-step machine;
  - the staged photos (at most ten images of at most 5 MB);
  - consent gating and the reference code;
  - the model years.
- **Landing pages** (`landing.dfy`). City and theme slugs, the 404 decisions, the icon labels, the titles and the submit gate.

`text.dfy` holds the JavaScript string built-ins the code relies on: `toUpperCase`/`toLowerCase`, `trim`, `split`, `slice`, `includes`, `padStart` and `filter`. `wrappers.dfy` holds `Option`.

The clock, generated ids, the server's answers and the DOM are parameters:
- times are milliseconds passed as `now`;
- uuids are passed in;
- a fetch answer is a value of a datatype;
- a form step is the list of its required controls.

Where the specification and the code disagree, the model follows the code. A successful login deletes the IP's attempt record (server.js:613), so failures below the threshold are forgotten once the right password is given. `AdminGuard.LoginHandler` and `AdminGuard.Login` state this.

## Model

| member | source | states |
|---|---|---|
| Plate.Clean | server.js:516 | the normalised plate is never longer than the input |
| Plate.CleanIsClean | server.js:516 | every character of a normalised plate is an upper-case letter or a digit |
| Plate.CleanIdempotent | server.js:516 | normalising an already normalised plate changes nothing |
| Plate.CleanIgnoresDashes | public/js/main.js:88 | dashes never reach the normalised plate, so removing them first changes nothing |
| Plate.LegacyFormatByRuns | server.js:518 | the legacy pattern accepts exactly the plates read as a digit run of 1-4, a letter run of 2-3, then two digits |
| Plate.FormatsDisjoint | server.js:524 | no plate is in both formats, so the reported format is well defined |
| Plate.ValidatePlaque | public/js/main.js:40-45 | the client accepts a plate iff its normalised form is in the current format or reads as a legacy plate by digit and letter runs; an accepted plate has 5 to 9 characters once normalised |
| Plate.CheckPlate | server.js:515-526 | the reported plate is the normalised one; `valide` holds iff the format is not `invalide`; the format is `nouveau` iff current, `ancien` iff legacy; `valide` equals the client's `validatePlaque` |
| Plate.FormatAsTyped | public/js/main.js:47-60 | the loop inserting '-' before positions 2 and 5 computes `TypedFormat`: dashed up to seven characters, the bare normalised plate beyond |
| Plate.TypedFormatUndashes | public/js/main.js:48-59 | removing the dashes from the home page's display gives the normalised plate back |
| Plate.TypedFormatIdempotent | public/js/main.js:47-60 | formatting the home page's display again leaves it unchanged |
| Plate.SlicedFormat | public/js/city-reprise.js:17-32 | the landing pages' display (the same code as theme-reprise.js:17-31) is at most nine characters |
| Plate.SlicedIsDashedPrefix | public/js/city-reprise.js:18-29 | the landing pages show the first seven plate characters, dashed as the current format |
| Plate.SlicedFormatIdempotent | public/js/city-reprise.js:18-29 | formatting the landing pages' display again leaves it unchanged |
| Plate.SlicedFormatUndashes | public/js/city-reprise.js:18-29 | removing the dashes from the landing display gives the first seven normalised characters |
| Plate.FormattersAgree | public/js/main.js:47-60 | up to seven plate characters, the home page and the landing pages display the same string |
| Plate.OnHomeInput | public/js/main.js:67-83 | the input shows the formatted value; fewer than seven plate characters carry no class, otherwise exactly one: valid iff `validatePlaque` holds |
| Plate.OnHomeSubmit | public/js/main.js:86-96 | the form goes to /reprise with the typed value iff the plate validates, otherwise the input is marked invalid |
| PlateExamples.ReportOfNormalised | server.js:516-525 | the endpoint's report depends on the input only through its normalised form |
| PlateExamples.CurrentFormatExample | server.js:515-526 | "AB-123-CD" is reported valid, as "AB123CD", in the current format |
| PlateExamples.LegacyFormatExample | server.js:515-526 | "1234AB75" is reported valid in the legacy format |
| PlateExamples.InvalidExample | server.js:515-526 | "AB1234" is reported invalid |
| PlateExamples.FormattersDisagreeOnLongLegacyPlate | public/js/city-reprise.js:17-32 | the valid eight-character legacy plate "1234AB75" stays whole on the home page but is cut to the invalid "12-34A-B7" on the landing pages |
| PlateExamples.ShortLegacyPlateStaysUnmarked | public/js/main.js:71-82 | the valid five-character legacy plate "1AB75" never gets the valid class while typed |
| AdminAuth.AdminPassword | server.js:530 | the password in force is never empty: the environment's when it is a non-empty string, else the built-in default |
| AdminAuth.MinutesLeft | server.js:566 | the minutes announced to a locked IP are at least one, and the remaining time rounded up to whole minutes |
| AdminAuth.Cleared | server.js:573-576 | the limiter forgets an IP exactly when its lockout has run out (boundary included), and changes nothing else |
| AdminAuth.Failure | server.js:624-628 | a failure adds one to the count; reaching five sets the lockout to now + 15 minutes, below five the lockout is kept |
| AdminAuth.FailureReply | server.js:627-642 | the reply is 429 with the lockout iff the count reached five; otherwise 401 with 5 - count (at least one) attempts left |
| AdminAuth.BearerToken | server.js:584-587 | a token is read iff the header starts with "Bearer ", and it holds no space |
| AdminAuth.BearerParts | server.js:587 | on a Bearer header, `split(' ')[1]` is the first space-free piece after the prefix |
| AdminAuth.BearerTokenRoundTrip | server.js:583-587 | the token a client puts after "Bearer " is the token read back, whatever follows a later space |
| AdminAuth.SweptSessions | server.js:544-548 | the sweep keeps exactly the sessions idle for at most an hour, unchanged |
| AdminAuth.SweptAttempts | server.js:550-554 | the sweep keeps exactly the attempt records whose lockout has not passed, unchanged |
| AdminAuth.SweepKeepsUnlockedRecords | server.js:550-554 | a record without a lockout is never swept |
| AdminAuth.SweepIdempotent | server.js:542-555 | sweeping twice at the same instant is sweeping once |
| AdminAuth.LimiterAndSweepBoundary | server.js:551-576 | at the very millisecond a lockout ends, the limiter lets the IP through and forgets it while the sweep would keep it |
| AdminAuth.AdminGuard.constructor | server.js:530-539 | both maps start empty, with the password in force, and the store's invariants hold |
| AdminAuth.AdminGuard.RateLimit | server.js:558-579 | a locked IP is refused with the minutes left and nothing changes; an elapsed lockout is deleted; any other request passes untouched; the invariants are kept |
| AdminAuth.AdminGuard.LoginHandler | server.js:607-644 | the right password deletes the IP's record and opens a session with createdAt = lastActivity = now; a wrong one stores the counted failure and answers 401 or 429 |
| AdminAuth.AdminGuard.Login | server.js:607-644 | while the IP is locked the login is refused whatever the password; otherwise the limiter's clearing is followed by the handler; the count never exceeds five |
| AdminAuth.AdminGuard.Authorize | server.js:582-604 | a missing or non-Bearer header and an unknown token are refused; an idle token is deleted and refused; otherwise the token's lastActivity becomes now |
| AdminAuth.AdminGuard.Sweep | server.js:542-555 | the loops over both maps leave exactly `SweptSessions` and `SweptAttempts`, keeping the invariants |
| AdminAuth.NoExpiryRightAfterSweep | server.js:544-548 | right after a sweep, the middleware finds no surviving token idle at the same instant |
| AdminAuth.LockoutScenario | server.js:607-644 | five wrong passwords get 4, 3, 2, 1 attempts left and then the lockout; a sixth try with the right password is still refused; after 15 minutes the right password logs in and its token is admitted |
| AdminAuth.WrongTries | server.js:622-642 | the replies to i wrong passwords from a fresh IP, one per try |
| AdminAuth.FiveWrongTries | server.js:622-642 | five wrong passwords are answered 4, 3, 2, 1 attempts left, then the lockout |
| AdminAuth.SlidingExpiryScenario | server.js:582-604 | each use of a token extends its life by an hour; more than an hour unused expires it, and it is then unknown |
| Slug.FoldString | server.js:681-683 | lower-casing, NFD decomposition and the removal of combining marks never lengthen the text |
| Slug.FoldAscii | server.js:681-683 | on ASCII text the fold is plain lower-casing |
| Slug.Hyphenate | server.js:684 | the result has only a-z, 0-9 and dashes, no double dash, is empty only for an empty text, and starts with a dash only when the text starts with a dropped character |
| Slug.HyphenateLength | server.js:684 | hyphenation never lengthens the text |
| Slug.HyphenateKeepsSlugChars | server.js:684 | hyphenation keeps exactly the a-z/0-9 characters, in order, between its dashes |
| Slug.Slugify | server.js:680-685 | a generated slug has only a-z, 0-9 and '-', no double dash, no leading or trailing dash, and is no longer than the title |
| Slug.SlugKeepsContent | server.js:680-685 | the slug keeps exactly the letters and digits of the folded title, in order; only dashes are added |
| Slug.SlugifyIdempotent | server.js:680-685 | slugifying a slug gives it back |
| Slug.CategorySlug | server.js:703 | the category slug is the folded category name, never longer than it |
| ArticleStore.StripTags | server.js:707 | removing `<...>` tags never lengthens the text, and leaves a text without '<' as it is |
| ArticleStore.WordCount | server.js:707 | the word count is one more than the number of white-space runs of the tag-stripped content |
| ArticleStore.ReadingTime | server.js:707 | the reading time is at least one minute, and the word count divided by 200 rounded up otherwise |
| ArticleStore.WordsCount | server.js:707 | plain text of n words separated by single spaces counts n words |
| ArticleStore.ReadingTimeOfWords | server.js:707 | n words read in ceil(n / 200) minutes, at least one |
| ArticleStore.ReadingTimeExamples | server.js:707 | 150 words read in one minute, 450 in three, empty content in one |
| ArticleStore.TagList | server.js:704 | splitting the tags on commas always gives at least one tag |
| ArticleStore.OrNull | server.js:699 | `field \|\| null`: a string exactly when the field is a non-empty string |
| ArticleStore.IfDefined | server.js:738 | `field !== undefined ? field : old`: a supplied value (null included) replaces, an absent one keeps |
| ArticleStore.NewArticle | server.js:692-713 | the created article: its slug is a well-formed slug of the title, the tags default to the category, the reading time is at least one, each optional field gets its default |
| ArticleStore.Patched | server.js:735-751 | an update keeps the slug and creation dates, replaces the supplied fields, keeps the others, recomputes the reading time only with new content and sets the modification date |
| ArticleStore.EmptyPatchKeepsArticle | server.js:735-751 | an update with an empty body changes nothing but the modification date |
| ArticleStore.FindSlug | server.js:724 | the first index holding the slug, and none exactly when no article has it |
| ArticleStore.WithoutSlug | server.js:761 | the filter keeps exactly the articles with another slug |
| ArticleStore.WithoutAbsentSlug | server.js:760-765 | deleting an absent slug leaves the list as it was |
| ArticleStore.WithoutPresentSlug | server.js:760-765 | deleting a present slug shortens the list |
| ArticleStore.WithoutSlugShrinks | server.js:760-765 | the length is unchanged exactly when the slug is absent, so the route answers 404 iff nothing was removed |
| ArticleStore.WithoutSlugRemovesOne | server.js:761 | with unique slugs, deleting a present slug removes exactly its one article and keeps the others in order |
| ArticleStore.RemoveAtKeepsUnique | server.js:758-769 | removing one article keeps slugs unique |
| ArticleStore.PrependKeepsUnique | server.js:688-715 | prepending an article whose slug is new keeps slugs unique |
| ArticleStore.NewDemande | server.js:268-291 | the lead has the given id, status "nouvelle", the optional comments and delay defaulted to "", and the uploaded photo names or none |
| ArticleStore.NewMessage | server.js:434-443 | the message has the given id, is unread, and defaults a missing phone to "" |
| ArticleStore.ContentStore.CreateArticle | server.js:671-719 | a missing required field or a taken slug answers 400 and writes nothing; otherwise the new article is first and the old list follows unchanged; slugs stay unique |
| ArticleStore.ContentStore.UpdateArticle | server.js:722-755 | an absent slug answers 404 and writes nothing; otherwise only the entry at the found index changes, to the patched article; slugs stay unique |
| ArticleStore.ContentStore.DeleteArticle | server.js:758-769 | the list becomes the filtered list; the answer is found iff the slug was present; slugs stay unique |
| ArticleStore.ContentStore.SubmitDemande | server.js:264-296 | the new lead is first in the lead list, the others follow, and the id answered is the lead's |
| ArticleStore.ContentStore.SubmitMessage | server.js:430-448 | the new message is first in the message list, the others follow |
| ArticleList.TotalPages | public/js/articles.js:56 | the number of pages is n / 10 rounded up |
| ArticleList.PageSlice | public/js/articles.js:57-59 | page p shows at most ten articles of the list |
| ArticleList.PageSliceIsRange | public/js/articles.js:56-59 | page p (from 1) shows exactly positions (p - 1) * 10 up to p * 10, cut at the end of the list |
| ArticleList.PagesUpToTotalAreFilled | public/js/articles.js:56-59 | every page from 1 to the total has at least one article |
| ArticleList.ArticleOnItsPage | public/js/articles.js:56-59 | the article at position k is shown on page k / 10 + 1, at place k % 10 |
| ArticleList.Slot | public/js/articles.js:102-106 | page i gets at most one entry |
| ArticleList.RenderPagination | public/js/articles.js:92-113 | the loop emits the previous button (disabled iff on page 1), the window of page entries, then the next button (disabled iff on the last page), every button carrying the filter given to goToPage |
| ArticleList.WindowButtons | public/js/articles.js:101-107 | page p has a button iff it is the first, the last, or within one of the current page; only the current one is active; each carries the pager's filter |
| ArticleList.WindowDots | public/js/articles.js:101-107 | a page without a button shows dots iff it is two away from the current one |
| ArticleList.WindowSize | public/js/articles.js:101-107 | the window never has more entries than there are pages |
| ArticleList.WindowCarries | public/js/articles.js:101-107 | the window holds only page buttons carrying the pager's filter, and dots |
| ArticleList.PagerCarries | public/js/articles.js:83-87 | every button of the pager renderArticles draws passes the filter it was drawn with to goToPage |
| ArticleList.CategoryFilter | public/js/articles.js:117-119 | the category filter never lengthens the list |
| ArticleList.CategoryFilterMembers | public/js/articles.js:117-119 | the filter keeps exactly the articles whose category slug, or lower-cased category, equals the filter |
| ArticleList.CategoryFilterAppend | public/js/articles.js:182-184 | filtering distributes over concatenation, so the kept articles stay in list order |
| ArticleList.ForFilter | public/js/articles.js:117-119 | 'all' gives the whole list, any other filter the category's articles |
| ArticleList.Truncate | public/js/articles.js:234-237 | a text within the limit is kept; a longer one ends in "...", is at most max + 3 long, and what precedes the dots is the first max characters trimmed: exactly their run left once the white space at both ends is cut off |
| ArticleList.Popular | public/js/articles.js:134 | the popular column is the first three articles |
| ArticleList.ItemListOf | public/js/articles.js:147-166 | the ItemList counts all articles and lists the first ten, positions 1 upward in list order, each with its URL and title |
| ArticleList.ArticlesPage.RenderArticles | public/js/articles.js:41-90 | an empty list clears the cards and the pager and shows the empty state; otherwise the page's slice is shown, the empty state hidden, and the pager (previous, window, next) only when there is more than one page, its buttons carrying the active filter (getCurrentFilter, lines 124-127); nothing else changes |
| ArticleList.ArticlesPage.Load | public/js/articles.js:13-39 | the loaded list is kept; an empty one shows the empty state, otherwise page 1 and its pager, the popular column and the ItemList are shown |
| ArticleList.ArticlesPage.ClickFilter | public/js/articles.js:168-189 | the clicked button becomes active, and page 1 of its list is rendered as renderArticles renders it (empty state, cards and pager); the popular column and the ItemList are untouched |
| ArticleList.ArticlesPage.ClickCategoryLink | public/js/articles.js:191-215 | the matching button (if any) becomes active, and page 1 of the category filter, with no 'all' case, is rendered as renderArticles renders it; when no button matches, every pager button carries 'all'; the popular column and the ItemList are untouched |
| ArticleList.ArticlesPage.GoToPage | public/js/articles.js:115-122 | the page becomes current and the filter's list is rendered at that page, the empty state included; the popular column and the ItemList are untouched |
| ArticleList.ArticlesPage.ClickPager | public/js/articles.js:98-110 | a click on an enabled pager button goes to its page with the filter that was active when the pager was drawn, so after a category link with no button it shows that page of all articles |
| FrenchDate.TwoDigits | public/js/articles.js:249 | a day or month number is rendered with at least two characters, a leading zero below ten |
| FrenchDate.MonthNumber | public/js/articles.js:250 | a known month name gives its number, anything else "01" |
| FrenchDate.ListDateISO | public/js/articles.js:239-255 | the list page's conversion lower-cases and splits on spaces: any count other than three parts, the empty date included, gives today; three parts give year-month-day with the looked-up month and the padded day |
| FrenchDate.FromParts | public/js/articles.js:247-254 | three parts become year-month-day with the day padded; any other count gives today |
| FrenchDate.ReplaceAcute | public/js/article-single.js:364 | the length is kept and no 'é' is left |
| FrenchDate.SingleDateISO | public/js/article-single.js:355-372 | the article page's conversion gives today for an empty date |
| FrenchDate.DateISO | public/js/article-single.js:355-372 | the corrected conversion, which folds every accent before the lookup, gives today for an empty date |
| FrenchDate.MonthTableIsCalendar | public/js/articles.js:241-245 | the table numbers the twelve unaccented names in calendar order |
| FrenchDate.AccentedNamesMissing | public/js/articles.js:241-245 | "février", "août" and "décembre" are not keys of the table |
| FrenchDate.FoldMonthName | public/js/article-single.js:358-362 | folding the accents of each month name gives the table's key |
| FrenchDate.AcuteMonthName | public/js/article-single.js:364 | replacing 'é' gives the key for every month but August |
| FrenchDate.DateISOOfLongDate | public/js/article-single.js:355-372 | the corrected conversion reads the long date of day d of month m of year y back as the ISO date of the same day |
| FrenchDate.ListDateISOOfLongDate | public/js/articles.js:239-255 | the list page reads February, August and December as January, and every other month right |
| FrenchDate.SingleDateISOOfLongDate | public/js/article-single.js:355-372 | the article page reads August as January, and every other month right |
| FrenchDate.DecemberMisread | public/js/articles.js:247-252 | "15 décembre 2024" is read by the list page as 2024-01-15 |
| FrenchDate.AugustMisread | public/js/article-single.js:364-369 | "15 août 2024" is read by the article page as 2024-01-15 |
| ArticlePage.OrElse | public/js/article-single.js:97 | `value \|\| fallback` for an optional string |
| ArticlePage.PageTitle | public/js/article-single.js:97 | the title is the meta title, or else the title followed by " \| LUNICAR" |
| ArticlePage.MetaDescription | public/js/article-single.js:102 | the description is the article's own, or else its excerpt |
| ArticlePage.SchemaDatesOf | public/js/article-single.js:157-158 | the published date is the date converted by the page's own formatDateISO; the modified date is the converted modification date, or the published one when there is none |
| ArticlePage.SchemaDatesOfNewArticle | public/js/article-single.js:157-158 | for an article never modified, both schema dates are the ISO date of its creation day, except that an August date is given as January |
| ArticlePage.TagsOrCategory | public/js/article-single.js:231 | the tags, or else the category alone |
| ArticlePage.TagLinks | public/js/article-single.js:231-235 | one link per tag, named by the tag and pointing at the list filtered by the lower-cased tag |
| ArticlePage.SameCategory | public/js/article-single.js:247 | exactly the category's articles other than the current one |
| ArticlePage.OtherCategories | public/js/article-single.js:251 | exactly the other categories' articles other than the current one |
| ArticlePage.Related | public/js/article-single.js:247-255 | at most three, never the current article, and the first three of the category's articles followed by the others |
| ArticlePage.RelatedPrefersCategory | public/js/article-single.js:247-255 | the related list starts with the category's articles in list order, and holds another category's only when the category has fewer than three |
| ArticlePage.Sidebar | public/js/article-single.js:291-293 | the first three articles (or all, when fewer) of the list without the current slug, in list order |
| ArticlePage.SidebarSkipsCurrent | public/js/article-single.js:291-293 | with unique slugs, the sidebar is the first three of the list once the current article is taken out, and the popular column when the current slug is absent |
| ArticlePage.TruncateOrEmpty | public/js/article-single.js:349-353 | a missing text gives ""; otherwise the text is truncated as on the list page |
| ArticlePage.MatchH2At | public/js/article-single.js:204 | a match of the h2 opened at i has a non-empty text without '<', followed by the closing tag, and ends just after it |
| ArticlePage.H2Headings | public/js/article-single.js:204 | every heading found has a non-empty text without '<' |
| ArticlePage.MatchOfParts | public/js/article-single.js:204 | an h2 opened at i, its first '>' at gt, then a non-empty text without '<' up to "</h2>" is matched at i with exactly that text |
| ArticlePage.HeadingFoundAt | public/js/article-single.js:204 | such a heading is the next one the scan from i finds, and the scan goes on right after its closing tag, so headings come out in document order |
| ArticlePage.PlainSkipped | public/js/article-single.js:204 | no heading starts in a stretch without '<': the scan passes over it |
| ArticlePage.NoTagNoHeading | public/js/article-single.js:204 | a content without '<' has no heading |
| ArticlePage.SectionIdsDistinct | public/js/article-single.js:221-224 | distinct headings get distinct ids |
| ArticlePage.HeadingIds | public/js/article-single.js:221-224 | the k-th h2 gets the id "section-" and k + 1 |
| ArticlePage.TableOfContents | public/js/article-single.js:192-215 | a table exists iff the content has at least 500 words and two headings; link k carries heading k's text and targets the id given to heading k |
| Reprise.ValidateStep | public/js/reprise.js:79-114 | the step is valid iff every required radio group has a checked member, every required field is non-blank after trimming, and on step 1 the plate validates |
| Reprise.Wizard.GoToStep | public/js/reprise.js:60-77 | the step becomes current, and the departed one is marked completed only when moving forward |
| Reprise.Wizard.Next | public/js/reprise.js:45-51 | the wizard advances by one, marking the step completed, iff the current step validates; otherwise nothing changes |
| Reprise.Wizard.Prev | public/js/reprise.js:54-57 | the wizard goes back by one without validation and marks nothing |
| Reprise.NoSkippingInvalidStep | public/js/reprise.js:45-51 | repeated clicks on "next" cannot leave an invalid first step |
| Reprise.Offer | public/js/reprise.js:171-189 | a file is staged iff fewer than ten are staged, it is at most 5 MB and its type names a jpeg, png or webp image; otherwise nothing is staged and a notice is given |
| Reprise.StageShape | public/js/reprise.js:167-192 | staging keeps the files already staged, adds only acceptable files taken from those offered, and never passes ten |
| Reprise.PhotoStaging.UpdateFileInput | public/js/reprise.js:216-220 | the input's files become the staged list |
| Reprise.PhotoStaging.HandleFiles | public/js/reprise.js:167-192 | the loop over the files leaves the staged list and notices of offering them one by one; at most ten acceptable files stay staged; the input mirrors the list |
| Reprise.PhotoStaging.Remove | public/js/reprise.js:206-211 | the file at the index is removed and the others keep their order (an index past the end changes nothing); the input mirrors the list |
| Reprise.ReferenceCode | public/js/reprise.js:256 | "REF-" followed by the first eight characters of the id, upper-cased |
| Reprise.Submission.Submit | public/js/reprise.js:228-272 | without consent no request is made and nothing changes; a success shows the reference code; a failure re-enables the button |
| Reprise.YearOptions | public/js/reprise.js:11-22 | the options run from the current year down to 1990, one per year, in descending order |
| Landing.CitySlug | public/js/city-reprise.js:10-14 | a slug exists iff the path is "/reprise-auto-" followed by a non-empty single-line rest, and it is that rest |
| Landing.CitySlugOfPath | public/js/city-reprise.js:10-14 | the path of a city's page gives back the city's slug |
| Landing.LoadCity | public/js/city-reprise.js:147-176 | without a slug nothing is requested; the 404 shell is shown iff there is no slug, the answer is not ok or failed, or the city has no name; otherwise the city is shown |
| Landing.CityPageShowsCity | public/js/city-reprise.js:147-176 | a city's own page answered with a named city shows it, after requesting /api/villes/ and its slug |
| Landing.ThemeSlug | public/js/theme-reprise.js:10-14 | the slug is the path without its first character |
| Landing.ThemeSlugOfPath | public/js/theme-reprise.js:10-14 | "/" followed by a slug gives back the slug |
| Landing.LoadTheme | public/js/theme-reprise.js:259-288 | an empty slug requests nothing; the 404 shell is shown iff the slug is empty, the answer is not ok or failed, or the theme has no h1; otherwise the theme is shown |
| Landing.RootIsNoTheme | public/js/theme-reprise.js:259-265 | the site root requests nothing and shows the 404 shell |
| Landing.IconDisplay | public/js/theme-reprise.js:34-153 | the label of a known icon, or the icon's own name, and never blank for a non-empty name |
| Landing.IconTable1 | public/js/theme-reprise.js:36-64 | the first part of the table; unknown names fall through, and no label is blank |
| Landing.IconTable2 | public/js/theme-reprise.js:65-93 | the second part of the table; unknown names fall through, and no label is blank |
| Landing.IconTable3 | public/js/theme-reprise.js:94-122 | the third part of the table; unknown names fall through, and no label is blank |
| Landing.IconTable4 | public/js/theme-reprise.js:123-150 | the last part of the table; an unknown name is shown as itself, and no label is blank |
| Landing.IconExamples | public/js/theme-reprise.js:34-153 | "money" shows "EUR", "2min" shows "2'", and the unknown "rocket" shows "rocket" |
| Landing.DocumentTitle | public/js/theme-reprise.js:162 | the title followed by " \| LUNICAR" |
| Landing.CtaTitle | public/js/theme-reprise.js:239-241 | the h1 and " - Estimation gratuite" iff the h1 contains "Reprise" or "Rachat", else the fixed invitation |
| Landing.CtaTitleMentionsOffer | public/js/theme-reprise.js:239-241 | a CTA that repeats the h1 always contains "Reprise" or "Rachat" |
| Landing.SubmitGateOnFormatted | public/js/city-reprise.js:192-200 | on a formatted input, submission is stopped iff fewer than seven plate characters were typed |

## Left out

- Email sending and templates, Express routing, static files, multer storage, JSON file I/O and concurrent writes. The collections are fields of `ContentStore`, read and written whole.
- DOM writes, scrolling, notifications, FileReader previews, DataTransfer, timers, `fetch` and sharing. The values the code computes for them are modelled; their display is not. This covers:
  - card and sidebar markup, with their emoji fallback;
  - the breadcrumb;
  - the Open Graph and Twitter tags;
  - the city page's text updates and the theme page's FAQ and advantages markup.
- The newsletter form, stats and sitemap routes, the cookie banner and the database client.
- uuid generation, `Date.now()`, `new Date().toISOString()` and `toLocaleDateString('fr-FR')` are parameters. `FrenchDate.LongDate` takes the fr-FR long date to be "d mois yyyy" with the day unpadded.
- The `setInterval` timer: `AdminGuard.Sweep` is one run of it at a given `now`.
- Unicode:
  - upper-casing covers the ASCII letters only, so 'ß' (which JavaScript upper-cases to "SS") and every other non-ASCII or expanding upper-case mapping are lost; a plate typed with 'ß' is refused where the site would accept it;
  - lower-casing and the NFD fold cover ASCII and the Latin-1 capitals only;
  - lengths count Unicode scalar values, not UTF-16 code units, so `substring`, `slice` and `length` differ from JavaScript on text outside the Basic Multilingual Plane (an emoji counts once, not twice), for example where `Truncate` cuts.
- JSON values other than strings, absent fields and null in a request body or an API answer.
- Object-prototype keys such as "constructor" in the month and icon lookups, which JavaScript finds on every object.
- Landing.IconDisplay: the label of each known icon is given by the table's cases and checked on examples; no single contract lists the 115 entries.
- `goToStep(0)`, reachable from "previous" on the first step, which makes the DOM query fail.
- Marking every progress step completed after a successful submission: `Wizard` and `Submission` are separate objects.
- ArticlePage.TableOfContents: the regular expression skips an h2 whose text holds markup, while `addHeadingIds` numbers every h2. When such a heading precedes others, links point one heading too early. The model numbers only the headings the expression finds.
- `formatDateISO` of the list page throws on a missing date. The model takes the date as a string.

## Findings

| source | as written | input that shows it | evidently intended | confidence | as-written member | corrected member |
|---|---|---|---|---|---|---|
| public/js/articles.js:239-255 | the month is looked up after lower-casing only, but the table's keys are unaccented, so "février", "août" and "décembre" fall back to "01" | "15 décembre 2024" gives "2024-01-15" | "2024-12-15": the month of the date | not executed | FrenchDate.DecemberMisread | FrenchDate.DateISOOfLongDate |
| public/js/article-single.js:355-372 | only 'é' is replaced before the lookup, so "août" keeps its 'û' and falls back to "01" | "15 août 2024" gives "2024-01-15" | "2024-08-15": the month of the date | not executed | FrenchDate.AugustMisread | FrenchDate.DateISOOfLongDate |

`FrenchDate.ListDateISOOfLongDate` and `FrenchDate.SingleDateISOOfLongDate` state each copy's behaviour on every month. `FrenchDate.DateISO` folds every accent before the lookup. `ArticlePage.SchemaDatesOf` uses the page's conversion as written, so the BlogPosting schema of an August article carries a January date (`ArticlePage.SchemaDatesOfNewArticle`); with `FrenchDate.DateISO` in its place, both dates would be the creation day for every month (`FrenchDate.DateISOOfLongDate`).
