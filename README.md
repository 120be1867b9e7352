# SoundCloud album downloader: the download route, modelled in Dafny

The repository is a small Next.js application. Its one API route,
`src/pages/api/download.ts`, takes a comma-separated list of SoundCloud
album links in the `links` query parameter and handles them one after
another. For each link it:

- launches a browser, opens the album page and reads the cover image URL
  out of the cover element's inline `background-image` style;
- fetches that image and tries to save it as `cover.jpg` in a download
  directory named after the album;
- scrolls the page to the bottom so every track loads, then collects the
  track links;
- drives a third-party converter site once per track;
- closes the browser.

Any failure other than saving the cover abandons that album, but never
the batch. Unless `links` is repeated (then `split` throws) or some
album's `autoScroll` never stops, the route answers 200 with the link
list; it throws when `links` is missing or empty.

This project models that route's logic:

- `wrappers.dfy` (module `Wrappers`): the `Option` type.
- `text.dfy` (module `Text`): the pure string code. That is
  `split(',')` and its `join`, the album name taken from a link, and
  `parseCoverUrl` with the JavaScript `indexOf`, `replace` and
  `replaceAll` it relies on.
- `scroll.dfy` (module `Scroll`): the timer loop of `autoScroll`, as a
  method with a `while` loop. The page is modelled as the scroll heights
  it reports tick by tick, after which its height is settled.
- `pipeline.dfy` (module `Pipeline`): `processLink` as a sequence of
  awaited steps.
  - Each step (launch, open page, read cover, fetch cover, mkdir,
    writeFile, scroll, collect, open converter, the ten per-track
    operations, close) either succeeds or throws.
  - Which steps succeed is given by an *oracle*, a function from steps
    to booleans that stands for the browser, the network and the file
    system.
  - The function `Run` is "await these steps in order until one throws".
    `Album` composes the phases the way the source's `try` blocks do.
  - The imperative methods (`ProcessLink` and the phase methods below
    it, `ConvertAll` with the track loop) are proved equal to it.
- `album_laws.dfy` (module `AlbumLaws`): what an album run guarantees.
  - Zero tracks means the converter is never visited.
  - The first fatal failure ends the album.
  - An album completes exactly when it has track links and every fatal step succeeds.
  - Tracks are attempted in index order.
  - A failure to save the cover cannot change anything else, while a
    failure to fetch the cover aborts the album.
- `route.dfy` (module `Route`): the handler. It rejects the missing
  parameter, splits the links, runs `eachSeries` over them as a loop and
  answers with the link list.

The model follows the code on these points, which are easy to misread:

- A failure to read the cover element (`$$eval`, line 62) is fatal to
  the album. It sits in the outer `try`, not the inner one.
- The album name is the *last* segment after '/'. A link ending in '/'
  gives the empty name, not the last non-empty segment.
- There is no per-track guard. The first failing step of any track ends
  the whole album, and the remaining tracks are not attempted.
- On a failure the browser is not closed, because `browser.close()` is
  inside the `try`. In the model, `CloseBrowser` is attempted only after
  every track has succeeded.

## Model

| member | source | states |
|---|---|---|
| `Text.Split` | src/pages/api/download.ts:30 | `split(',')` yields at least one piece, and no piece contains the separator |
| `Text.Join` | src/pages/api/download.ts:30 | definition, no contract of its own: `join(sep)`, the inverse partner of Split (JoinSplit, SplitJoin) |
| `Text.JoinSplit` | src/pages/api/download.ts:30 | joining the pieces of a split with the separator gives back the original string |
| `Text.SplitJoin` | src/pages/api/download.ts:30 | splitting a join of separator-free pieces (at least one) gives back exactly those pieces |
| `Text.SplitCount` | src/pages/api/download.ts:30 | the number of pieces is the number of separators plus one |
| `Text.LastPiece` | src/pages/api/download.ts:35-36 | definition, no contract of its own: `paths[paths.length - 1]` of a split |
| `Text.SplitLast` | src/pages/api/download.ts:35-36 | the last piece of a split is a suffix of the string, preceded by the separator whenever it is shorter than the string |
| `Text.AlbumName` | src/pages/api/download.ts:34-37 | the album name has no '/', is a suffix of the link, is preceded by '/' when shorter than the link, and is empty exactly when the link is empty or ends in '/' |
| `Text.AlbumNameUnique` | src/pages/api/download.ts:34-37 | any '/'-free suffix of the link that starts the link or follows a '/' is the album name, so the three properties determine it |
| `Text.IndexOfFrom` | src/pages/api/download.ts:67 | a position found at or after `from` leaves room for the whole pattern inside the string |
| `Text.IndexOfFromFirst` | src/pages/api/download.ts:67 | the pattern occurs at the position found and at no earlier position from `from` on; when nothing is found it occurs nowhere from `from` on |
| `Text.IndexOfFromAt` | src/pages/api/download.ts:67 | conversely, the first position from `from` on where the pattern occurs is the one found |
| `Text.IndexOf` | src/pages/api/download.ts:67 | `indexOf` (first occurrence, by IndexOfFromFirst and IndexOfFromAt from 0): a found position leaves room for the whole pattern |
| `Text.RemoveFirst` | src/pages/api/download.ts:67 | `replace(pat, '')`: unchanged when the pattern is absent, otherwise exactly one occurrence's length shorter |
| `Text.RemoveAll` | src/pages/api/download.ts:67 | `replaceAll(c, '')`: the result has no `c`, is no longer than the input, and is unchanged when `c` is absent |
| `Text.RemoveAllCount` | src/pages/api/download.ts:67 | removing every `c` shortens the string by exactly the number of `c`s in it |
| `Text.RemoveAllAppend` | src/pages/api/download.ts:67 | removing every `c` distributes over concatenation |
| `Text.ParseCoverUrl` | src/pages/api/download.ts:66-68 | the parsed URL contains no double quote and is no longer than the style value |
| `Text.DropUrlOpen` | src/pages/api/download.ts:67 | `replace('url(', '')` on a wrapped style value drops exactly its leading `url(` |
| `Text.DropCloseParen` | src/pages/api/download.ts:67 | `replace(')', '')` on `"X")` with no ')' in X drops exactly the closing parenthesis |
| `Text.DropQuotes` | src/pages/api/download.ts:67 | `replaceAll('"', '')` on `"X"` with no quote in X gives X |
| `Text.ParseCoverUrlWrapped` | src/pages/api/download.ts:65-68 | round trip: the style `url("X")` parses back to X for any X without quotes or ')' |
| `Scroll.Reading` | src/pages/api/download.ts:164 | definition, no contract of its own: `document.body.scrollHeight` as read on tick k, the page's k-th reported height and its settled height after those |
| `Scroll.StopsAt` | src/pages/api/download.ts:162-168 | definition, no contract of its own: the test `totalHeight >= scrollHeight - innerHeight` on tick k, where `totalHeight` has grown by `distance` = 100 (`Scroll.Distance`, line 162) on each of the k ticks |
| `Scroll.IsStopTick` | src/pages/api/download.ts:168-170 | definition, no contract of its own: the timer is cleared on tick k exactly when the test holds there and on no earlier tick |
| `Scroll.MaxReading` | src/pages/api/download.ts:164 | the returned height is one the page reports, and every scroll height it reports is at most that height |
| `Scroll.TickBound` | src/pages/api/download.ts:162-168 | ceil(max(height - innerHeight, 100) / 100) is at least one tick |
| `Scroll.StopsAtBound` | src/pages/api/download.ts:166-168 | on tick TickBound the stop test holds for every page no higher than the bound |
| `Scroll.StopTickUnique` | src/pages/api/download.ts:168-170 | the tick on which the timer is cleared is unique |
| `Scroll.StopsOnFirstTick` | src/pages/api/download.ts:164-170 | a page whose first reading is at most 100 pixels beyond the viewport stops on the first tick |
| `Scroll.StopTickBounded` | src/pages/api/download.ts:161-172 | a page no higher than h stops within ceil(max(h - innerHeight, 100) / 100) ticks |
| `Scroll.AutoScroll` | src/pages/api/download.ts:158-175 | the loop stops on the first tick whose test `totalHeight >= scrollHeight - innerHeight` holds, with `totalHeight` equal to 100 times the tick count, within the tick bound of the page's largest height |
| `Pipeline.IsCoverSave` | src/pages/api/download.ts:76-85 | definition, no contract of its own: the steps whose failure the inner `try` catches are `mkdir` and `writeFile` of the cover |
| `Pipeline.IsFatal` | src/pages/api/download.ts:76-85 | definition, no contract of its own: every other step, so its failure throws out of the album |
| `Pipeline.Keep` | src/pages/api/download.ts:32-151 | filtering keeps only events whose step satisfies the filter, and no more events than the original; KeepAppend and KeepAllOrNone decide each event |
| `Pipeline.Run` | src/pages/api/download.ts:32-151 | awaiting a plan attempts at most its steps, and at least one when it has any |
| `Pipeline.RunShape` | src/pages/api/download.ts:32-151 | a run is the plan's prefix up to and including the first failing step: each event is the plan's step with the oracle's answer, all but the last succeed, it stops early only at a failure, and it succeeds throughout exactly when every step does |
| `Pipeline.RunAppend` | src/pages/api/download.ts:32-151 | two plans back to back: the second runs only when the first succeeded throughout |
| `Pipeline.RunAgree` | src/pages/api/download.ts:32-151 | a run depends only on the outcomes of its own plan's steps |
| `Pipeline.SubmitPlan` | src/pages/api/download.ts:115-127 | definition, no contract of its own: find input, type the link, find submit, click, wait for navigation |
| `Pipeline.DownloadPlan` | src/pages/api/download.ts:130-143 | definition, no contract of its own: find download, click, find "download another", click, wait for navigation |
| `Pipeline.TrackPlan` | src/pages/api/download.ts:115-143 | one track is ten steps, all tagged with that track's index |
| `Pipeline.ConversionPlan` | src/pages/api/download.ts:110-144 | the track loop is 10 steps per track, each tagged with a valid track index |
| `Pipeline.ConversionPlanAt` | src/pages/api/download.ts:110-144 | step j of track x is at position 10x + j: tracks in index order, each in its fixed step order |
| `Pipeline.ConversionPlanPrefix` | src/pages/api/download.ts:110-144 | the steps of the first k tracks are the first 10k steps of the loop |
| `Pipeline.Opening` | src/pages/api/download.ts:53-75 | definition, no contract of its own: launch, new page, goto, cover read, cover fetch, all outside the inner `try` |
| `Pipeline.CoverSave` | src/pages/api/download.ts:76-85 | definition, no contract of its own: mkdir, then writeFile, of the album's directory |
| `Pipeline.Collecting` | src/pages/api/download.ts:88-96 | definition, no contract of its own: autoScroll, then collecting the track links |
| `Pipeline.Converting` | src/pages/api/download.ts:104-146 | definition, no contract of its own: goto the converter, every track's ten steps, close the browser |
| `Pipeline.Abort` | src/pages/api/download.ts:148-150 | definition, no contract of its own: the outer `catch` ends the album with the events so far, failed at the step that threw |
| `Pipeline.Album` | src/pages/api/download.ts:32-151 | definition, no contract of its own: the specification of `processLink` that ProcessLink is proved equal to and that every AlbumLaws lemma is about |
| `Pipeline.Await` | src/pages/api/download.ts:53-143 | one awaited step records its outcome and throws exactly when it fails, consuming one step of the plan being run |
| `Pipeline.SubmitTrack` | src/pages/api/download.ts:115-127 | find the input, type the track link, find and click submit, wait for navigation: in order up to the first failure |
| `Pipeline.DownloadTrack` | src/pages/api/download.ts:129-143 | find and click download, find and click "download another", wait for navigation: in order up to the first failure |
| `Pipeline.ConvertTrack` | src/pages/api/download.ts:111-143 | one loop iteration runs the track's ten steps in order and stops at the first failure |
| `Pipeline.OpenAlbum` | src/pages/api/download.ts:53-75 | launch, new page, goto, cover read and cover fetch, run in order up to the first failure |
| `Pipeline.SaveCover` | src/pages/api/download.ts:76-85 | mkdir then writeFile, the first failure ending only this block |
| `Pipeline.ScrollAndCollect` | src/pages/api/download.ts:88-96 | scrolling then collecting track links, up to the first failure |
| `Pipeline.ConvertAll` | src/pages/api/download.ts:104-146 | opening the converter, the track loop and closing the browser run as one plan up to the first failure |
| `Pipeline.ConvertingAbandoned` | src/pages/api/download.ts:110-146 | once a track step has failed, no later track and no close is attempted |
| `Pipeline.ProcessLink` | src/pages/api/download.ts:32-151 | `processLink` equals the specification `Album` on the cover URL parsed from the page's style and the page's track links |
| `AlbumLaws.RunSteps` | src/pages/api/download.ts:32-151 | every attempted step is the plan's step at that position |
| `AlbumLaws.NoTracksNoConversion` | src/pages/api/download.ts:99-101 | with no track links the album is abandoned, and the converter and every track step are never attempted |
| `AlbumLaws.FailureEndsAlbum` | src/pages/api/download.ts:32-150 | a failed step other than the cover save is the album's last event, and the album's fault is that step |
| `AlbumLaws.CompletedIff` | src/pages/api/download.ts:32-147 | an album completes exactly when it has track links and every fatal step succeeds, and then it reports all its tracks |
| `AlbumLaws.TrackEvents` | src/pages/api/download.ts:104-144 | the album's track events are exactly the run of the track loop once the converter opened, and there are none otherwise |
| `AlbumLaws.NoTrackEvents` | src/pages/api/download.ts:53-96 | a phase without track steps produces no track events |
| `AlbumLaws.ConverterTrackEvents` | src/pages/api/download.ts:104-146 | the converter phase's track events are the run of the track loop when the converter opened, and none otherwise |
| `AlbumLaws.TrackRunKept` | src/pages/api/download.ts:110-144 | every event of the track loop's run is a track event |
| `AlbumLaws.FatalRunAgrees` | src/pages/api/download.ts:32-151 | a plan of fatal steps runs the same under oracles that agree on fatal steps |
| `AlbumLaws.FatalRunKept` | src/pages/api/download.ts:32-151 | removing cover-save events leaves a run of fatal steps whole |
| `AlbumLaws.ConvertingFatal` | src/pages/api/download.ts:104-146 | every step of the converter phase is fatal to the album |
| `AlbumLaws.AlbumFatalEvents` | src/pages/api/download.ts:32-151 | the album's events without the cover save are its fatal phases' runs |
| `AlbumLaws.CoverSaveIsolated` | src/pages/api/download.ts:76-85 | under oracles that differ only on mkdir and writeFile, the album ends the same way and attempts the same other steps with the same results |
| `AlbumLaws.AlbumOutcomeOfFatalRuns` | src/pages/api/download.ts:32-151 | the album's outcome depends only on the runs of its fatal phases |
| `AlbumLaws.CoverFetchFailureAborts` | src/pages/api/download.ts:75 | a failed cover fetch ends the album after exactly five steps, with nothing saved or scrolled |
| `AlbumLaws.CoverSaveFailureContinues` | src/pages/api/download.ts:76-88 | a failed mkdir is followed directly by the scroll step |
| `Route.Links` | src/pages/api/download.ts:26-30 | no links exactly when the parameter is absent or empty (then the handler throws `Route.MissingLinks`, the message of line 28); otherwise one link per comma plus one, each comma-free, joining back to the parameter |
| `Route.TwoLinks` | src/pages/api/download.ts:30 | the parameter `a/x,b/y` gives exactly the links `a/x` and `b/y` |
| `Route.Attempt` | src/pages/api/download.ts:32-151 | definition, no contract of its own: `processLink` on one link, the cover URL parsed from the page's style |
| `Route.AttemptLink` | src/pages/api/download.ts:32-151 | one link's attempt is the album run of that link against the world it meets |
| `Route.Indexed` | src/pages/api/download.ts:153 | mapping over a list with positions keeps its length |
| `Route.IndexedAt` | src/pages/api/download.ts:153 | position i of the mapped list is the function at element i and position i |
| `Route.IndexedSnoc` | src/pages/api/download.ts:153 | extending the list by its next element extends the mapped list by a single entry |
| `Route.Batch` | src/pages/api/download.ts:153 | a batch has one album run per link |
| `Route.BatchAt` | src/pages/api/download.ts:153 | run i is link i attempted against world i, whatever happened to the other albums |
| `Route.BatchSnoc` | src/pages/api/download.ts:153 | the attempts of the first i + 1 links are those of the first i links, then link i against world i |
| `Route.AttemptAll` | src/pages/api/download.ts:153 | `eachSeries` attempts every link, in order, each album's failure staying inside it |
| `Route.Handler` | src/pages/api/download.ts:22-156 | a missing or empty `links` throws before any album is attempted; otherwise every link is attempted in order and the answer is status 200 with exactly the split link list |

Constants with no row of their own, since they are values rather than members with a contract: `Scroll.Distance` is `distance` = 100 of line 162, and `Route.MissingLinks` is the error message of line 28.

Proof helpers with no row of their own: the predicates `Pipeline.AllOk`, `Pipeline.IsTrackStep`, `Scroll.ReadingsAtMost` and `AlbumLaws.OffConverter`; the lemmas `Pipeline.KeepAppend`, `Pipeline.KeepAllOrNone`, `Pipeline.AllOkAppend`, `AlbumLaws.KeepPhases`, `AlbumLaws.OffConverterAppend`, `AlbumLaws.KeepNone`, `AlbumLaws.KeepBetween`, `Text.SuffixOfTail`, `Pipeline.Regroup` and `AlbumLaws.AlbumEvents` (the latter is `Album`'s definition with the outcome projected away).

## Left out

- Browser automation is not modelled because it is foreign code: Puppeteer, its ad-blocking plugin (line 12), the download-directory preference plugin (lines 42-50), and the converter site's DOM. Each awaited call is a step that succeeds or fails as an oracle says.
- What the world does is not modelled, because it cannot be seen from the source:
  - what `fetch`, `mkdir`, `writeFile` and `Buffer` do with data;
  - the files that end up on disk;
  - the audio files the converter produces.
- The download path is not modelled: `process.env.HOME` / `USERPROFILE`, `path.join` and the `Downloads` directory. The model keeps only the album name that ends the path. The precise way a `mkdir` of an existing directory fails is part of the oracle.
- Time is not modelled: `DEFAULT_TIMEOUT`, the one-second timer interval, navigation timeouts and the unused `sleep` helper. A timeout is a failing step.
- The asynchronous machinery is not modelled: promises, `setInterval` and `eachSeries` scheduling. Steps are modelled in the order the source awaits them.
- Console logging is not modelled: `console.log` and `console.error` have no effect on behaviour.
- `Scroll.AutoScroll`: a page on which the stop test fails on every tick is left out; the real loop never ends on it. Every run that stops reads finitely many heights, so it is a `Page`: the heights it reads, then any settled height. The viewport height is taken as constant.
- `Scroll.AutoScroll`: the scrolling itself (`window.scrollBy`) is not modelled; only its counter is.
- `Route.Handler`: the case where `links` is given more than once, so that Next.js passes an array despite the `as string` cast, is not modelled. The parameter is either absent or one string.
- `Route.Handler`: the thrown error is modelled as a `Thrown` response. How Next.js turns an exception into an HTTP 500 is not modelled.
- `Route.Handler`: the world an album meets (its page and which steps succeed) is given per link position, as a parameter.
- `Route.Handler`: in the album model, scrolling is one oracle step that always ends; it is not tied to `Scroll.AutoScroll`. So "always answers 200" assumes every album's `autoScroll` stops, which fails on a page where the stop test never holds.
- `Pipeline.ProcessLink`: the album page is given as its cover style string and its track links, which stands in for what the DOM queries return.
