/**
 * The control flow of `processLink` (download.ts lines 32-151) for one album
 * link. Every browser, network and file operation is an abstract step whose
 * success or failure an oracle decides; a failed step throws, and since the
 * only `catch` that encloses the fatal steps is the one at line 148, the
 * first failure ends the album. The one exception is saving the cover
 * (`mkdir` and `writeFile`, lines 76-85), whose failure is caught and logged.
 */
module Pipeline {
  import opened Text

  /** The ten awaited operations of one pass through the converter site (lines 115-143). */
  datatype TrackStep =
    | FindInput        // page.$('input[class=form-control]'), line 115
    | TypeUrl(url: string)  // input.type(urls[x]), line 119
    | FindSubmit       // page.$('button[type=submit]'), line 121
    | ClickSubmit      // line 125
    | AwaitResult      // page.waitForNavigation, line 127
    | FindDownload     // page.$('button[type=submit]') on the result page, line 130
    | ClickDownload    // line 134
    | FindAnother      // page.$('a[href="https://www.soundcloudme.com"]'), line 136
    | ClickAnother     // line 142
    | AwaitReturn      // page.waitForNavigation, line 143

  /** Every operation of an album that can fail. */
  datatype Step =
    | Launch                       // puppeteer.launch, line 53
    | OpenPage                     // browser.newPage, line 56
    | GotoAlbum(link: string)      // page.goto(link), line 57
    | ReadCover                    // $$eval on the first cover element, line 62
    | FetchCover(url: string)      // fetch(coverUrl) and arrayBuffer, line 75
    | MakeCoverDir(album: string)  // mkdir(downloadPath), line 78
    | WriteCover(album: string)    // writeFile(.../cover.jpg), line 79
    | Scroll                       // autoScroll(page), line 88
    | CollectTracks                // $$eval collecting the track hrefs, line 91
    | GotoConverter(link: string)  // page.goto of the converter site, line 104
    | OnTrack(index: nat, step: TrackStep)  // the track loop, lines 110-144
    | CloseBrowser                 // browser.close, line 146

  /** One attempted step and whether it succeeded. */
  datatype Event = Event(step: Step, ok: bool)

  /** Which steps succeed: the browser, the network and the file system, seen from outside. */
  type Oracle = Step -> bool

  /** What the album page offers: the inline background-image style of its cover element and its track links in page order. */
  datatype AlbumPage = AlbumPage(coverStyle: string, trackUrls: seq<string>)

  /** Why an album was abandoned: a step threw, or no track links were found (line 100). */
  datatype Fault = StepFailed(step: Step) | NoTracks

  datatype AlbumOutcome = Completed(tracks: nat) | Aborted(fault: Fault)

  /** Everything one album does: the steps attempted, in order, and how it ended. */
  datatype AlbumRun = AlbumRun(events: seq<Event>, outcome: AlbumOutcome)

  predicate AllOk(events: seq<Event>)
  {
    forall i :: 0 <= i < |events| ==> events[i].ok
  }

  /** The steps whose failure is caught inside the album (lines 76-85). */
  predicate IsCoverSave(s: Step)
  {
    s.MakeCoverDir? || s.WriteCover?
  }

  /** The steps whose failure throws out of the album: all the others. */
  predicate IsFatal(s: Step)
  {
    !IsCoverSave(s)
  }

  predicate IsTrackStep(s: Step)
  {
    s.OnTrack?
  }

  /** The events whose step satisfies `keep`, in their order. */
  function Keep(events: seq<Event>, keep: Step -> bool): (kept: seq<Event>)
    ensures |kept| <= |events|
    ensures forall i :: 0 <= i < |kept| ==> keep(kept[i].step)
    decreases |events|
  {
    if events == [] then []
    else (if keep(events[0].step) then [events[0]] else []) + Keep(events[1..], keep)
  }

  lemma {:induction false} KeepAppend(a: seq<Event>, b: seq<Event>, keep: Step -> bool)
    ensures Keep(a + b, keep) == Keep(a, keep) + Keep(b, keep)
    decreases |a|
  {
    if a == [] {
      assert a + b == b;
    } else {
      var head := if keep(a[0].step) then [a[0]] else [];
      assert (a + b)[0] == a[0];
      assert (a + b)[1..] == a[1..] + b;
      assert Keep(a + b, keep) == head + Keep(a[1..] + b, keep);
      KeepAppend(a[1..], b, keep);
      assert Keep(a, keep) == head + Keep(a[1..], keep);
    }
  }

  /** Filtering keeps every event exactly when every event's step satisfies `keep`, and drops all when none does. */
  lemma {:induction false} KeepAllOrNone(events: seq<Event>, keep: Step -> bool)
    ensures (forall i :: 0 <= i < |events| ==> keep(events[i].step)) ==> Keep(events, keep) == events
    ensures (forall i :: 0 <= i < |events| ==> !keep(events[i].step)) ==> Keep(events, keep) == []
    decreases |events|
  {
    if events != [] {
      KeepAllOrNone(events[1..], keep);
      assert forall i :: 0 < i < |events| ==> events[1..][i - 1] == events[i];
      assert events == [events[0]] + events[1..];
    }
  }

  /**
   * Awaiting the steps of `plan` one after another, where a failed step
   * throws: each step is attempted in order, and the first failure is the
   * last step attempted.
   */
  function Run(plan: seq<Step>, ok: Oracle): (events: seq<Event>)
    ensures |events| <= |plan|
    ensures plan != [] ==> events != []
    decreases |plan|
  {
    if plan == [] then []
    else if ok(plan[0]) then [Event(plan[0], true)] + Run(plan[1..], ok)
    else [Event(plan[0], false)]
  }

  /**
   * A run is the plan's prefix up to and including its first failing step:
   * each event is the plan's step at that position with the oracle's answer,
   * every event but the last succeeded, and the run stops short of the plan's
   * end only at a failure. It succeeded throughout exactly when every step of
   * the plan succeeds.
   */
  lemma {:induction false} RunShape(plan: seq<Step>, ok: Oracle)
    ensures var events := Run(plan, ok);
      (forall i :: 0 <= i < |events| ==> events[i] == Event(plan[i], ok(plan[i]))) &&
      (forall i :: 0 <= i < |events| - 1 ==> events[i].ok) &&
      (|events| < |plan| ==> !events[|events| - 1].ok) &&
      (AllOk(events) <==> forall i :: 0 <= i < |plan| ==> ok(plan[i]))
    decreases |plan|
  {
    if plan != [] && ok(plan[0]) {
      RunShape(plan[1..], ok);
      var tail := Run(plan[1..], ok);
      var events := Run(plan, ok);
      assert events == [Event(plan[0], true)] + tail;
      assert forall i :: 0 < i < |events| ==> events[i] == tail[i - 1];
      assert forall i :: 0 < i < |plan| ==> plan[i] == plan[1..][i - 1];
      if forall i :: 0 <= i < |plan[1..]| ==> ok(plan[1..][i]) {
        assert forall i :: 0 <= i < |plan| ==> ok(plan[i]) by {
          forall i | 0 <= i < |plan| ensures ok(plan[i]) {
            if i > 0 { assert ok(plan[1..][i - 1]); }
          }
        }
      }
    }
  }

  /** A concatenation of events succeeded throughout exactly when both parts did. */
  lemma AllOkAppend(a: seq<Event>, b: seq<Event>)
    ensures AllOk(a + b) <==> AllOk(a) && AllOk(b)
  {
    forall i | 0 <= i < |a| ensures (a + b)[i] == a[i] { }
    forall i | 0 <= i < |b| ensures (a + b)[|a| + i] == b[i] { }
    if AllOk(a) && AllOk(b) {
      forall i | 0 <= i < |a + b| ensures (a + b)[i].ok {
        if i >= |a| { assert (a + b)[i] == b[i - |a|]; }
      }
    }
  }

  /** Running two plans back to back runs the second only when the first did not throw. */
  lemma {:induction false} RunAppend(a: seq<Step>, b: seq<Step>, ok: Oracle)
    ensures AllOk(Run(a, ok)) ==> Run(a + b, ok) == Run(a, ok) + Run(b, ok)
    ensures !AllOk(Run(a, ok)) ==> Run(a + b, ok) == Run(a, ok)
    decreases |a|
  {
    if a == [] {
      assert a + b == b;
    } else {
      var ab := a + b;
      assert ab != [] && ab[0] == a[0];
      assert ab[1..] == a[1..] + b;
      if !ok(a[0]) {
        var e := Event(a[0], false);
        assert Run(ab, ok) == [e];
        assert Run(a, ok) == [e];
        assert !AllOk([e]) by { assert ![e][0].ok; }
      } else {
        var e := Event(a[0], true);
        RunAppend(a[1..], b, ok);
        var tail := Run(a[1..], ok);
        assert Run(a, ok) == [e] + tail;
        assert Run(ab, ok) == [e] + Run(a[1..] + b, ok);
        AllOkAppend([e], tail);
        assert AllOk([e]);
        if AllOk(tail) {
          assert [e] + (tail + Run(b, ok)) == ([e] + tail) + Run(b, ok);
        }
      }
    }
  }

  /** A run depends only on the oracle's answers for the steps of its plan. */
  lemma {:induction false} RunAgree(plan: seq<Step>, ok1: Oracle, ok2: Oracle)
    requires forall i :: 0 <= i < |plan| ==> ok1(plan[i]) == ok2(plan[i])
    ensures Run(plan, ok1) == Run(plan, ok2)
    decreases |plan|
  {
    if plan != [] {
      RunAgree(plan[1..], ok1, ok2);
    }
  }

  /** The fixed order in which one track walks through the converter site. */
  function TrackPlan(x: nat, url: string): (plan: seq<Step>)
    ensures |plan| == 10
    ensures forall j :: 0 <= j < |plan| ==> plan[j].OnTrack? && plan[j].index == x
  {
    [OnTrack(x, FindInput), OnTrack(x, TypeUrl(url)), OnTrack(x, FindSubmit),
     OnTrack(x, ClickSubmit), OnTrack(x, AwaitResult), OnTrack(x, FindDownload),
     OnTrack(x, ClickDownload), OnTrack(x, FindAnother), OnTrack(x, ClickAnother),
     OnTrack(x, AwaitReturn)]
  }

  /** All tracks' steps, track 0 first (the loop of lines 110-144). */
  function ConversionPlan(urls: seq<string>): (plan: seq<Step>)
    ensures |plan| == 10 * |urls|
    ensures forall i :: 0 <= i < |plan| ==> plan[i].OnTrack? && plan[i].index < |urls|
    decreases |urls|
  {
    if urls == [] then []
    else ConversionPlan(urls[..|urls| - 1]) + TrackPlan(|urls| - 1, urls[|urls| - 1])
  }

  /** Step j of track x is at position 10 * x + j of the conversion plan: tracks in index order, each in the fixed order. */
  lemma {:induction false} ConversionPlanAt(urls: seq<string>, x: nat, j: nat)
    requires x < |urls| && j < 10
    ensures ConversionPlan(urls)[10 * x + j] == TrackPlan(x, urls[x])[j]
    decreases |urls|
  {
    var n := |urls| - 1;
    assert ConversionPlan(urls) == ConversionPlan(urls[..n]) + TrackPlan(n, urls[n]);
    if x < n {
      ConversionPlanAt(urls[..n], x, j);
      assert urls[..n][x] == urls[x];
    }
  }

  /** The opening steps, all fatal: launch, open the album page, read and fetch the cover (lines 53-75). */
  function Opening(link: string, coverUrl: string): seq<Step>
  {
    [Launch, OpenPage, GotoAlbum(link), ReadCover, FetchCover(coverUrl)]
  }

  /** Saving the cover into the album's download directory, whose failure is swallowed (lines 76-85). */
  function CoverSave(link: string): seq<Step>
  {
    [MakeCoverDir(AlbumName(link)), WriteCover(AlbumName(link))]
  }

  /** Scrolling the page and collecting the track links (lines 88-96). */
  function Collecting(): seq<Step>
  {
    [Scroll, CollectTracks]
  }

  /** The converter phase: open the converter, convert every track, close the browser (lines 104-146). */
  function Converting(link: string, urls: seq<string>): seq<Step>
  {
    [GotoConverter(link)] + ConversionPlan(urls) + [CloseBrowser]
  }

  /** An album abandoned at the last event, the step that threw. */
  function Abort(events: seq<Event>): (r: AlbumRun)
    requires events != []
  {
    AlbumRun(events, Aborted(StepFailed(events[|events| - 1].step)))
  }

  /**
   * What `processLink` does with one album link, as a composition of runs,
   * given the cover URL parsed from the page and the track links it yields.
   */
  function Album(link: string, coverUrl: string, urls: seq<string>, ok: Oracle): AlbumRun
  {
    var opening := Run(Opening(link, coverUrl), ok);
    if !AllOk(opening) then Abort(opening)
    else
      var before := opening + Run(CoverSave(link), ok) + Run(Collecting(), ok);
      if !AllOk(Run(Collecting(), ok)) then Abort(before)
      else if urls == [] then AlbumRun(before, Aborted(NoTracks))
      else
        var converting := Run(Converting(link, urls), ok);
        if !AllOk(converting) then Abort(before + converting)
        else AlbumRun(before + converting, Completed(|urls|))
  }

  /** The tracks' steps up to track k are the first 10 * k steps of the conversion plan. */
  lemma {:induction false} ConversionPlanPrefix(urls: seq<string>, k: nat)
    requires k <= |urls|
    ensures ConversionPlan(urls)[..10 * k] == ConversionPlan(urls[..k])
    decreases |urls|
  {
    if k < |urls| {
      var n := |urls| - 1;
      assert ConversionPlan(urls) == ConversionPlan(urls[..n]) + TrackPlan(n, urls[n]);
      ConversionPlanPrefix(urls[..n], k);
      assert urls[..n][..k] == urls[..k];
    } else {
      assert urls[..k] == urls;
    }
  }

  /**
   * One awaited step: it is attempted, and it throws (`failed`) when the
   * oracle says it fails. The ghost `rest` is what is left of the plan being
   * run, so that `events + Run(rest, ok)` stays the run of the whole plan.
   */
  method Await(events: seq<Event>, ghost rest: seq<Step>, s: Step, ok: Oracle)
    returns (events': seq<Event>, ghost rest': seq<Step>, failed: bool)
    requires rest != [] && rest[0] == s
    ensures events' == events + [Event(s, ok(s))] && failed == !ok(s)
    ensures rest' == rest[1..]
    ensures failed ==> events + Run(rest, ok) == events'
    ensures AllOk(events') <==> AllOk(events) && ok(s)
    ensures !failed ==> events + Run(rest, ok) == events' + Run(rest', ok)
  {
    events' := events + [Event(s, ok(s))];
    failed := !ok(s);
    rest' := rest[1..];
    AllOkAppend(events, [Event(s, ok(s))]);
    assert AllOk([Event(s, ok(s))]) <==> ok(s) by {
      assert [Event(s, ok(s))][0].ok == ok(s);
    }
  }

  /** Lines 115-127: fill the converter's form with the track link, submit it and wait for the result page. */
  function SubmitPlan(x: nat, url: string): seq<Step>
  {
    [OnTrack(x, FindInput), OnTrack(x, TypeUrl(url)), OnTrack(x, FindSubmit),
     OnTrack(x, ClickSubmit), OnTrack(x, AwaitResult)]
  }

  /** Lines 130-143: click download on the result page, then go back for the next track. */
  function DownloadPlan(x: nat): seq<Step>
  {
    [OnTrack(x, FindDownload), OnTrack(x, ClickDownload), OnTrack(x, FindAnother),
     OnTrack(x, ClickAnother), OnTrack(x, AwaitReturn)]
  }

  /** The first half of a track's steps, up to the result page. */
  method SubmitTrack(x: nat, url: string, ok: Oracle) returns (events: seq<Event>, failed: bool)
    ensures events == Run(SubmitPlan(x, url), ok)
    ensures failed == !AllOk(events)
  {
    ghost var rest := SubmitPlan(x, url);
    events := [];
    events, rest, failed := Await(events, rest, OnTrack(x, FindInput), ok);
    if failed { return; }
    events, rest, failed := Await(events, rest, OnTrack(x, TypeUrl(url)), ok);
    if failed { return; }
    events, rest, failed := Await(events, rest, OnTrack(x, FindSubmit), ok);
    if failed { return; }
    events, rest, failed := Await(events, rest, OnTrack(x, ClickSubmit), ok);
    if failed { return; }
    events, rest, failed := Await(events, rest, OnTrack(x, AwaitResult), ok);
  }

  /** The second half of a track's steps, from the result page back to the form. */
  method DownloadTrack(x: nat, ok: Oracle) returns (events: seq<Event>, failed: bool)
    ensures events == Run(DownloadPlan(x), ok)
    ensures failed == !AllOk(events)
  {
    ghost var rest := DownloadPlan(x);
    events := [];
    events, rest, failed := Await(events, rest, OnTrack(x, FindDownload), ok);
    if failed { return; }
    events, rest, failed := Await(events, rest, OnTrack(x, ClickDownload), ok);
    if failed { return; }
    events, rest, failed := Await(events, rest, OnTrack(x, FindAnother), ok);
    if failed { return; }
    events, rest, failed := Await(events, rest, OnTrack(x, ClickAnother), ok);
    if failed { return; }
    events, rest, failed := Await(events, rest, OnTrack(x, AwaitReturn), ok);
  }

  /**
   * The body of the track loop (lines 111-143) for track `x`: the ten steps
   * in their fixed order, the first failure throwing out of the album.
   */
  method ConvertTrack(x: nat, url: string, ok: Oracle) returns (events: seq<Event>, failed: bool)
    ensures events == Run(TrackPlan(x, url), ok)
    ensures failed == !AllOk(events)
  {
    assert TrackPlan(x, url) == SubmitPlan(x, url) + DownloadPlan(x);
    RunAppend(SubmitPlan(x, url), DownloadPlan(x), ok);
    events, failed := SubmitTrack(x, url, ok);
    if failed { return; }
    var downloading;
    downloading, failed := DownloadTrack(x, ok);
    AllOkAppend(events, downloading);
    events := events + downloading;
  }

  /**
   * Launching the browser, opening the album page, reading the cover style
   * and fetching the image at `coverUrl`, its parsed form (lines 53-75).
   */
  method OpenAlbum(link: string, coverUrl: string, ok: Oracle) returns (events: seq<Event>, failed: bool)
    ensures events == Run(Opening(link, coverUrl), ok)
    ensures failed == !AllOk(events)
  {
    ghost var rest := Opening(link, coverUrl);
    events := [];
    events, rest, failed := Await(events, rest, Launch, ok);
    if failed { return; }
    events, rest, failed := Await(events, rest, OpenPage, ok);
    if failed { return; }
    events, rest, failed := Await(events, rest, GotoAlbum(link), ok);
    if failed { return; }
    events, rest, failed := Await(events, rest, ReadCover, ok);
    if failed { return; }
    events, rest, failed := Await(events, rest, FetchCover(coverUrl), ok);
  }

  /** The inner try of lines 76-85: `mkdir` then `writeFile`, a failure ending only this block. */
  method SaveCover(link: string, ok: Oracle) returns (events: seq<Event>)
    ensures events == Run(CoverSave(link), ok)
  {
    var album := AlbumName(link);
    ghost var rest := CoverSave(link);
    var failed;
    events := [];
    events, rest, failed := Await(events, rest, MakeCoverDir(album), ok);
    if !failed {
      events, rest, failed := Await(events, rest, WriteCover(album), ok);
    }
  }

  /** Scrolling to the bottom and collecting the track links (lines 88-96). */
  method ScrollAndCollect(ok: Oracle) returns (events: seq<Event>, failed: bool)
    ensures events == Run(Collecting(), ok)
    ensures failed == !AllOk(events)
  {
    ghost var rest := Collecting();
    events := [];
    events, rest, failed := Await(events, rest, Scroll, ok);
    if failed { return; }
    events, rest, failed := Await(events, rest, CollectTracks, ok);
  }

  /** Opening the converter, the track loop of lines 110-144, and closing the browser (line 146). */
  method ConvertAll(link: string, urls: seq<string>, ok: Oracle) returns (events: seq<Event>, failed: bool)
    ensures events == Run(Converting(link, urls), ok)
    ensures failed == !AllOk(events)
  {
    ghost var rest := [GotoConverter(link)];
    events := [];
    events, rest, failed := Await(events, rest, GotoConverter(link), ok);
    if failed {
      ConvertingAbandoned(link, urls, 0, ok);
      return;
    }
    for x := 0 to |urls|
      invariant events == Run([GotoConverter(link)] + ConversionPlan(urls[..x]), ok)
      invariant AllOk(events)
    {
      var trackEvents, trackFailed := ConvertTrack(x, urls[x], ok);
      ghost var done := [GotoConverter(link)] + ConversionPlan(urls[..x]);
      assert urls[..x + 1][..x] == urls[..x];
      assert [GotoConverter(link)] + ConversionPlan(urls[..x + 1]) == done + TrackPlan(x, urls[x]);
      RunAppend(done, TrackPlan(x, urls[x]), ok);
      AllOkAppend(events, trackEvents);
      events := events + trackEvents;
      if trackFailed {
        ConvertingAbandoned(link, urls, x + 1, ok);
        failed := true;
        return;
      }
    }
    assert urls[..|urls|] == urls;
    RunAppend([GotoConverter(link)] + ConversionPlan(urls), [CloseBrowser], ok);
    rest := [CloseBrowser];
    events, rest, failed := Await(events, rest, CloseBrowser, ok);
  }

  /**
   * `processLink` (lines 32-151): the album's phases in source order. A
   * throw in any phase but the cover save ends the album (the catch at line
   * 148); an album without track links throws at line 100.
   */
  method ProcessLink(link: string, page: AlbumPage, ok: Oracle) returns (run: AlbumRun)
    ensures run == Album(link, ParseCoverUrl(page.coverStyle), page.trackUrls, ok)
  {
    var coverUrl := ParseCoverUrl(page.coverStyle);
    var opening, failed := OpenAlbum(link, coverUrl, ok);
    if failed { return Abort(opening); }
    var saving := SaveCover(link, ok);
    var collecting;
    collecting, failed := ScrollAndCollect(ok);
    var events := opening + saving + collecting;
    if failed { return Abort(events); }
    var urls := page.trackUrls;
    if |urls| == 0 {
      return AlbumRun(events, Aborted(NoTracks));
    }
    var converting;
    converting, failed := ConvertAll(link, urls, ok);
    events := events + converting;
    if failed { return Abort(events); }
    return AlbumRun(events, Completed(|urls|));
  }

  /** Once the first k tracks' steps include a failure, the rest of the converter phase never runs. */
  lemma ConvertingAbandoned(link: string, urls: seq<string>, k: nat, ok: Oracle)
    requires k <= |urls|
    requires !AllOk(Run([GotoConverter(link)] + ConversionPlan(urls[..k]), ok))
    ensures Run(Converting(link, urls), ok) == Run([GotoConverter(link)] + ConversionPlan(urls[..k]), ok)
  {
    var plan := ConversionPlan(urls);
    ConversionPlanPrefix(urls, k);
    var head := [GotoConverter(link)] + ConversionPlan(urls[..k]);
    var tail := plan[10 * k..] + [CloseBrowser];
    Regroup([GotoConverter(link)], plan, 10 * k, [CloseBrowser]);
    RunAppend(head, tail, ok);
  }

  /** Cutting the middle of `a + m + c` at `n` regroups it around the cut. */
  lemma Regroup(a: seq<Step>, m: seq<Step>, n: nat, c: seq<Step>)
    requires n <= |m|
    ensures a + m + c == (a + m[..n]) + (m[n..] + c)
  {
    assert m == m[..n] + m[n..];
  }
}
