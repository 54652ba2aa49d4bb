# LinkedIn group members scraper — a Dafny model of its decision logic

The scraper logs into LinkedIn with Playwright, opens a group's member list,
scrolls until the list stops growing, collects the profile links, visits every
profile for its name, headline and country, and saves the results as JSON and
CSV. A captcha module detects captcha markup and runs a chain of heuristic
strategies, with a manual-solve wait as the last resort.

This project models the control logic between the browser calls. The browser
is an oracle:

- A captcha `Document` is the set of CSS selectors that match the page or a
  frame, plus the selectors whose element has a bounding box.
- A `Site` records, for the group pages:
  - whether the group page and its members page load;
  - whether the members search box is there;
  - the height and the "Show more results" button that each scroll
    iteration observes;
  - the rendered results list;
  - what each profile page shows.
- The random draws are inputs: which tile images to click, and how far a
  slide aims, in how many moves and with what jitter.
- The puzzle strategies return their mouse gestures as sequences of events.
- Files go to a `Disk` object, a map from path to the value written.

Modules, one per source file or component:

- `Text` (`text.dfy`): the Python string operations used: `lower`, `in`
  and `strip`.
- `UrlJoin` (`url_join.dfy`): `urljoin` against the LinkedIn base URL, as
  Python 3.12's `urlsplit` cleans and splits the reference.
- `CaptchaSolver` (`captcha_solver.dfy`): `Scraper/CaptchaSolver.py`. Its
  loops are methods proved against specification functions: target
  extraction, detection, tile clicking, the strategy chain and the
  manual-solve polling.
- `MemberRecords` (`member_records.dfy`): the record dictionaries and the
  values `csv.DictWriter` and `json.dump` write, with readers for the round
  trips.
- `GroupsMembers` (`groups_members_scraper.dfy`): `Scraper/GroupsMembersScraper.py`.
  - The class `GroupsMembersScraper` holds the Playwright driver and browser
    lifecycle, which `startBrowser` and `stop_browser` update.
  - Its methods model the scroll loop, link collection, profile visits,
    saving and `run`.
  - Lemmas cover the stage gating and the output file names.

Behaviours of the code that the model keeps:

- A missing results container is caught and gives an empty list. The model
  raises no structural error.
- List items without the profile anchor are skipped rather than kept as
  partial records.
- Only URLs are collected from the list; names come from the profile visits.
- The slider and drag strategies report success whenever the motion could be
  performed.

Proved consequences of the code as written:

- `JsonName(name) == name` exactly when `name` contains no ".csv". The entry
  script in `main.py` passes "Ahmed" as the members file. The members JSON
  therefore replaces the members CSV, and the URL list is saved as JSON under
  "data/output.csv" (`GroupsMembers.EntryScriptOutputs`).
- Every record has exactly the four columns, so `csv.DictWriter` never
  refuses one in a run (`MemberRecords.CsvFileOfMembers`).

## Model

| member | source | states |
|---|---|---|
| `Text.Lower` | Scraper/CaptchaSolver.py:121 | `lower()` keeps the length, leaves no capital letter, turns each capital into its small letter and keeps every other character |
| `Text.LowerIsLower` | Scraper/CaptchaSolver.py:121 | lowering twice equals lowering once, which makes target matching case-insensitive |
| `Text.Contains` | Scraper/CaptchaSolver.py:130 | `target in text`: the empty string is in every text, a text contains its own prefixes and suffixes, and nothing longer than the text is in it |
| `Text.Strip` | Scraper/GroupsMembersScraper.py:139-141 | `strip()` returns a slice of its input whose first and last characters are not whitespace, everything cut off on either side being whitespace |
| `CaptchaSolver.DetectCaptcha` | Scraper/CaptchaSolver.py:16-38 | true iff one of the 13 marker selectors matches; probes them in listed order and stops at the first match, all earlier ones not matching; probes all 13 when none matches |
| `CaptchaSolver.ExtractTargetFromInstruction` | Scraper/CaptchaSolver.py:119-133 | the loop collecting targets returns the filter of the common targets by occurrence in the lowered instruction |
| `CaptchaSolver.TargetsInSpec` | Scraper/CaptchaSolver.py:119-133 | a target is extracted iff it is a common target occurring as a substring of the lowered instruction; the result is a subsequence of the target list with no duplicates; it is empty iff no target occurs |
| `CaptchaSolver.TargetsIgnoreCase` | Scraper/CaptchaSolver.py:121 | an instruction and its lowered form yield the same targets |
| `CaptchaSolver.OccurringMembers` | Scraper/CaptchaSolver.py:128-131 | an entry is kept by the filtering loop iff it is in the list and occurs in the text |
| `CaptchaSolver.SolveVisualChallenge` | Scraper/CaptchaSolver.py:89-117 | no targets: false and no click; otherwise clicks, in page order and each once, exactly the tiles whose draw says so, and succeeds iff the verify button is there |
| `CaptchaSolver.SolveImageChallenge` | Scraper/CaptchaSolver.py:65-87 | false without an instruction element or without tile images; otherwise the visual challenge's verdict |
| `CaptchaSolver.SolveRecaptchaV2` | Scraper/CaptchaSolver.py:40-63 | false when the anchor iframe or the checkbox is missing; true after the checkbox click when no challenge frame appears; otherwise the image challenge's verdict |
| `CaptchaSolver.PuzzlePasses` | Scraper/CaptchaSolver.py:148-169 | false without a puzzle container; a slider takes precedence over a drag element; false with neither; success needs a bounding box (and, for a drag, a drop zone with one) |
| `CaptchaSolver.SolvePuzzleCaptcha` | Scraper/CaptchaSolver.py:148-169 | reports exactly the puzzle verdict; a failure performs no gesture, a success one press-and-release gesture |
| `CaptchaSolver.SolveSliderPuzzle` | Scraper/CaptchaSolver.py:171-206 | fails, without moving the mouse, iff the slider has no bounding box; otherwise presses 10 pixels in from its left edge at mid height, makes `steps` moves along that line, each within 2 pixels of the span to the aimed point, and releases |
| `CaptchaSolver.SlideStaysOnSlider` | Scraper/CaptchaSolver.py:178-199 | on a slider at least 40 pixels wide, no point of a slide leaves the slider's box |
| `CaptchaSolver.SolveDragPuzzle` | Scraper/CaptchaSolver.py:208-239 | fails, without moving the mouse, iff the drop zone is missing or it or the dragged element has no bounding box; otherwise presses at the centre of the dragged element and releases at the centre of the drop zone, both inside their boxes |
| `CaptchaSolver.BypassCaptchaWithDelays` | Scraper/CaptchaSolver.py:241-269 | succeeds iff the captcha is gone after the reload or after the back-and-forward; goes back and forward only when it is still there after the reload |
| `CaptchaSolver.SolveCaptcha` | Scraper/CaptchaSolver.py:271-297 | no captcha: true with no strategy run; otherwise recaptcha, puzzle, bypass in that order, stopping at the first success, so no later strategy runs; false only after all three failed |
| `CaptchaSolver.WaitForManualSolve` | Scraper/CaptchaSolver.py:299-311 | polls once a second; true iff within `timeout` seconds some poll sees no captcha, returning at the first such poll; otherwise false after `timeout` polls (none for a non-positive timeout) |
| `MemberRecords.FirstMisfit` | Scraper/GroupsMembersScraper.py:162-164 | the writer takes every record before the first one with a key outside the header, and refuses that one |
| `MemberRecords.RowOfMemberShaped` | Scraper/GroupsMembersScraper.py:142-147 | a record with exactly the four keys fits the header and its CSV row holds its values in column order, `None` as an empty field |
| `MemberRecords.CsvFileOfMembers` | Scraper/GroupsMembersScraper.py:155-164 | for member records the CSV header is name, headline, country, profile_url, taken from the first record, and every record becomes a row with its own values |
| `MemberRecords.RecordsJsonRoundTrip` | Scraper/GroupsMembersScraper.py:169-171 | reading the members JSON back gives the records written, field for field, in order |
| `MemberRecords.UrlsJsonRoundTrip` | Scraper/GroupsMembersScraper.py:182 | reading the URL list JSON back gives the URLs written, in order |
| `UrlJoin.ResolveUrl` | Scraper/GroupsMembersScraper.py:119 | the resolved URL is never empty; an href with a scheme other than https is returned as it is; any other href is resolved to an "https://" URL |
| `UrlJoin.KeepsAbsoluteHttps` | Scraper/GroupsMembersScraper.py:119 | an https URL with a host and no tab or line break comes back unchanged |
| `UrlJoin.KeepsHttp` | Scraper/GroupsMembersScraper.py:119 | an "http://" URL comes back unchanged, its scheme differing from the base's |
| `GroupsMembers.SettlesAtPlateau` | Scraper/GroupsMembersScraper.py:80-83 | heights strictly growing from a non-zero start and then repeating once with no button: the loop stops exactly at the repeat |
| `GroupsMembers.ButtonKeepsScrolling` | Scraper/GroupsMembersScraper.py:71-82 | a round that found the button never ends the loop, whatever the height |
| `GroupsMembers.UntilBroken` | Scraper/GroupsMembersScraper.py:117-119 | the number of list items read before the first anchor without `href` (where `profile_url_elem['href']` raises) |
| `GroupsMembers.ResolvedCount` | Scraper/GroupsMembersScraper.py:117-121 | one URL per list item with a profile link, none empty: N linked rows give N URLs |
| `GroupsMembers.ResolvedMembers` | Scraper/GroupsMembersScraper.py:117-121 | a URL is collected iff it is the resolved href of some item with a profile link |
| `GroupsMembers.ProfileUrlsIsPrefix` | Scraper/GroupsMembersScraper.py:117-128 | an error part-way returns what was collected so far, a prefix of the full list, and without a broken item it is the full list |
| `GroupsMembers.MemberInfosSpec` | Scraper/GroupsMembersScraper.py:132-151 | the records' profile_url column is exactly the input URLs whose visit did not raise, in input order; no more records than URLs; every record has exactly the four keys |
| `GroupsMembers.NoMembersMeansNoVisitLoaded` | Scraper/GroupsMembersScraper.py:135-151 | the member list is empty iff every profile visit raised |
| `GroupsMembers.JsonName` | Scraper/GroupsMembersScraper.py:186 | `replace('.csv', '.json')` lengthens the name by one per ".csv" replaced and keeps its first character |
| `GroupsMembers.JsonNameLeavesNoCsv` | Scraper/GroupsMembersScraper.py:186 | the replacement is complete: no ".csv" is left in the JSON name |
| `GroupsMembers.JsonNameSameExactlyWithoutCsv` | Scraper/GroupsMembersScraper.py:186 | the JSON name equals the CSV name iff the name contains no ".csv" |
| `GroupsMembers.JsonNameOfCsvFile` | Scraper/GroupsMembersScraper.py:186 | a name ending in ".csv" gets a JSON name ending in ".json" with the stem treated alike |
| `GroupsMembers.GroupsMembersScraper.constructor` | Scraper/GroupsMembersScraper.py:12-18 | keeps the credentials, derives the login URL from the base URL, and holds no driver or browser yet |
| `GroupsMembers.GroupsMembersScraper.StartBrowser` | Scraper/GroupsMembersScraper.py:20-25 | the driver is started and a browser with a page is open |
| `GroupsMembers.GroupsMembersScraper.StopBrowser` | Scraper/GroupsMembersScraper.py:29-33 | closes the browser if there is one and stops the driver if it was started |
| `GroupsMembers.GroupsMembersScraper.ScrollToLoadAllMembers` | Scraper/GroupsMembersScraper.py:64-83 | leaves at the first round whose height equals the previous reading (0 at first) and that found no button, reading no further round; keeps going while the rounds last otherwise |
| `GroupsMembers.GroupsMembersScraper.GetMembersUrls` | Scraper/GroupsMembersScraper.py:87-128 | a failure opening the group page escapes; other failures before the list, or a missing container, give an empty list; otherwise the resolved hrefs of the anchored items in order, up to the first broken anchor |
| `GroupsMembers.GroupsMembersScraper.GetMembersInfos` | Scraper/GroupsMembersScraper.py:132-151 | the loop's records are one per URL whose visit did not raise, built from the stripped texts |
| `GroupsMembers.GroupsMembersScraper.SaveToCsv` | Scraper/GroupsMembersScraper.py:155-165 | writes nothing for an empty list; otherwise the file holds the first record's keys as header and the rows accepted; raises iff a record has a key outside the header |
| `GroupsMembers.GroupsMembersScraper.SaveToJson` | Scraper/GroupsMembersScraper.py:169-172 | the file holds the JSON value |
| `GroupsMembers.GroupsMembersScraper.Run` | Scraper/GroupsMembersScraper.py:176-188 | the browser is stopped however the run ends, unless the list never stops growing; the files written are those of `RunWrites`; an escaping error leaves the disk unchanged |
| `GroupsMembers.RunWritesGating` | Scraper/GroupsMembersScraper.py:181-186 | no URLs: no file; URLs but every visit raised: only the URL list; otherwise URL list, then members CSV with the four columns, then members JSON at the derived name |
| `GroupsMembers.CsvSurvivesOnlyWithCsvInName` | Scraper/GroupsMembersScraper.py:185-186 | after a run with members the JSON is at the derived name and the CSV survives iff the members file name contains ".csv" |
| `GroupsMembers.EntryScriptOutputs` | main.py:8 | with the entry script's arguments, "data/output.csv" holds the URL list as JSON and "Ahmed" holds the members JSON, the CSV being overwritten |

## Left out

- Playwright itself: navigation, clicks, fills, `evaluate`, `content`, reloads, history and mouse primitives. These appear only as the oracle's answers.
- `login`, which swallows every exception, and the captcha handling it triggers after submitting credentials. The `Site` describes the pages as the session sees them.
- The join-group and "Continue" clicks in `get_members_urls`. A click that raises is caught at lines 126-128 and the method returns an empty list; the model folds such a failure into `membersPageLoads == false`.
- The dialog-dismiss handler that `startBrowser` installs.
- Randomness: the probabilities in `should_click_image` are replaced by one click draw per tile, and the slide's reach, step count and jitters are inputs in the ranges `random` draws them from. The random waits are not modelled.
- CaptchaSolver.SolveSliderPuzzle: Python floats are modelled as exact reals, so rounding in the gesture coordinates is not captured.
- CaptchaSolver.SolveVisualChallenge: a Playwright call that raises inside a strategy is not modelled. The strategy would then return false, while the model reports the verdict the contracts state. Such calls include the checkbox, tile and verify clicks (lines 52, 103, 110) and the mouse primitives of the slider and drag puzzles (lines 187-200, 229-233). The same holds for `SolveRecaptchaV2`, `SolvePuzzleCaptcha`, `SolveSliderPuzzle`, `SolveDragPuzzle` and for the reload and back/forward calls of `BypassCaptchaWithDelays`.
- CaptchaSolver.SolveCaptcha: detection, the reCAPTCHA strategy and the puzzle strategy all read the same snapshot of the page. The puzzle strategy therefore sees the page as it was before the reCAPTCHA strategy's checkbox, tile and verify clicks (lines 52, 103, 110). Only the bypass strategy sees new pages, after its reload and after its back-and-forward.
- CaptchaSolver.SolveCaptcha: the `except` branch is not modelled separately. Each strategy catches its own exceptions, so that branch catches only a failing two-second wait, and it continues exactly as after a failure.
- CaptchaSolver.WaitForManualSolve: time is counted in whole seconds, one per poll. The time spent in the probes themselves, which would allow fewer polls within the timeout, is not counted.
- Text.Lower: only ASCII letters are case-mapped. Python's full Unicode lowering is not modelled; for example, it maps the Kelvin sign to 'k'.
- UrlJoin.ResolveUrl: `urljoin`'s path normalisation is not modelled. Empty segments ("in//x") and "." and ".." segments are kept as written.
- UrlJoin.ResolveUrl: `urlunsplit` drops an empty "?", "#" or ";" when it rebuilds an https URL with a host; the model keeps them.
- UrlJoin.ResolveUrl: no `ValueError` that `urlsplit` raises on a host is modelled. This covers unbalanced or malformed brackets (text before "[", or anything but a port after "]"), a bracketed host that is not an IPv6 or IPvFuture address (such as "[zz]"), and a non-ASCII host whose NFKC form contains "/", "?", "#", "@" or ":". On such an href `get_members_urls` catches the error and returns the URLs collected so far; the model resolves the href instead.
- UrlJoin.KeepsHttp: on an "http://" URL whose host `urlsplit` rejects (such as "http://[zz]/"), `urljoin` raises `ValueError` instead of returning the URL unchanged.
- UrlJoin.KeepsAbsoluteHttps: on an https URL whose host `urlsplit` rejects (such as "https://[zz]/"), `urljoin` raises `ValueError`. On one with an empty query, fragment or parameters (such as "https://h/p?", "https://h/p#" or "https://h/p;"), `urlunsplit` drops the empty "?", "#" or ";". The lemma states that both come back unchanged.
- GroupsMembers.GroupsMembersScraper.GetMembersInfos: a URL visited twice is assumed to show the same profile page, since the oracle is a function of the URL.
- GroupsMembers.GroupsMembersScraper.ScrollToLoadAllMembers: the source loop has no bound. The model runs over a finite sequence of observed rounds, and `Run` reports `StillScrolling` when they run out before the stopping round.
- BeautifulSoup parsing: the results list is given as its `li` items in document order.
- The byte formats of `csv` and `json`, and failures to open or write files.
- The unused cv2, numpy, PIL and base64 imports.
