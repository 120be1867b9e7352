/**
 * Properties of one album's run: what happens when no track is found, how a
 * failure ends the album, the order in which tracks are converted, and why a
 * failure to save the cover changes nothing else.
 */
module AlbumLaws {
  import opened Text
  import opened Pipeline

  /** The steps of a run, each with the oracle's answer: every event's step is the plan's step at that position. */
  lemma RunSteps(plan: seq<Step>, ok: Oracle)
    ensures forall i :: 0 <= i < |Run(plan, ok)| ==> Run(plan, ok)[i].step == plan[i]
  {
    RunShape(plan, ok);
  }

  /**
   * An album whose page yields no track links (line 99) is abandoned with
   * NoTracks or an earlier failure, and neither the converter site nor any
   * track step is attempted.
   */
  lemma NoTracksNoConversion(link: string, coverUrl: string, ok: Oracle)
    ensures var r := Album(link, coverUrl, [], ok);
      r.outcome.Aborted? &&
      forall i :: 0 <= i < |r.events| ==> !r.events[i].step.GotoConverter? && !r.events[i].step.OnTrack?
  {
    var opening := Run(Opening(link, coverUrl), ok);
    var saving := Run(CoverSave(link), ok);
    var collecting := Run(Collecting(), ok);
    AlbumEvents(link, coverUrl, [], ok);
    RunSteps(Opening(link, coverUrl), ok);
    RunSteps(CoverSave(link), ok);
    RunSteps(Collecting(), ok);
    OffConverterAppend(opening, saving);
    OffConverterAppend(opening + saving, collecting);
  }

  /** No event of `events` is at the converter site. */
  predicate OffConverter(events: seq<Event>)
  {
    forall i :: 0 <= i < |events| ==> !events[i].step.GotoConverter? && !events[i].step.OnTrack?
  }

  /** Events away from the converter stay so when concatenated. */
  lemma OffConverterAppend(a: seq<Event>, b: seq<Event>)
    requires OffConverter(a) && OffConverter(b)
    ensures OffConverter(a + b)
  {
    forall i | 0 <= i < |a + b|
      ensures !(a + b)[i].step.GotoConverter? && !(a + b)[i].step.OnTrack?
    {
      if i >= |a| { assert (a + b)[i] == b[i - |a|]; }
    }
  }

  /**
   * A failed step other than saving the cover is the album's last event, and
   * the album is abandoned at that step: no later step nor later track runs.
   */
  lemma FailureEndsAlbum(link: string, coverUrl: string, urls: seq<string>, ok: Oracle, i: nat)
    requires var r := Album(link, coverUrl, urls, ok);
      i < |r.events| && !r.events[i].ok && IsFatal(r.events[i].step)
    ensures var r := Album(link, coverUrl, urls, ok);
      i == |r.events| - 1 && r.outcome == Aborted(StepFailed(r.events[i].step))
  {
    var opening := Run(Opening(link, coverUrl), ok);
    var saving := Run(CoverSave(link), ok);
    var collecting := Run(Collecting(), ok);
    var converting := Run(Converting(link, urls), ok);
    RunShape(Opening(link, coverUrl), ok);
    RunShape(CoverSave(link), ok);
    RunShape(Collecting(), ok);
    RunShape(Converting(link, urls), ok);
    var r := Album(link, coverUrl, urls, ok);
    if AllOk(opening) {
      var before := opening + saving + collecting;
      assert i >= |opening|;
      if AllOk(collecting) && urls != [] {
        assert r.events == before + converting;
        assert i >= |before|;
      }
    }
  }

  /**
   * An album completes exactly when it has track links and every fatal step
   * of its plan succeeds; it then reports all its tracks.
   */
  lemma CompletedIff(link: string, coverUrl: string, urls: seq<string>, ok: Oracle)
    ensures var r := Album(link, coverUrl, urls, ok);
      var plan := Opening(link, coverUrl) + Collecting() + Converting(link, urls);
      (r.outcome.Completed? <==> urls != [] && forall i :: 0 <= i < |plan| ==> ok(plan[i])) &&
      (r.outcome.Completed? ==> r.outcome.tracks == |urls|)
  {
    var a, b, c := Opening(link, coverUrl), Collecting(), Converting(link, urls);
    RunShape(a, ok);
    RunShape(b, ok);
    RunShape(c, ok);
    var plan := a + b + c;
    if forall i :: 0 <= i < |plan| ==> ok(plan[i]) {
      assert forall i :: 0 <= i < |a| ==> ok(a[i]) by {
        forall i | 0 <= i < |a| ensures ok(a[i]) { assert plan[i] == a[i]; }
      }
      assert forall i :: 0 <= i < |b| ==> ok(b[i]) by {
        forall i | 0 <= i < |b| ensures ok(b[i]) { assert plan[|a| + i] == b[i]; }
      }
      assert forall i :: 0 <= i < |c| ==> ok(c[i]) by {
        forall i | 0 <= i < |c| ensures ok(c[i]) { assert plan[|a| + |b| + i] == c[i]; }
      }
    }
    if (forall i :: 0 <= i < |a| ==> ok(a[i])) && (forall i :: 0 <= i < |b| ==> ok(b[i])) &&
       (forall i :: 0 <= i < |c| ==> ok(c[i])) {
      forall i | 0 <= i < |plan| ensures ok(plan[i]) {
        if i < |a| { assert plan[i] == a[i]; }
        else if i < |a| + |b| { assert plan[i] == b[i - |a|]; }
        else { assert plan[i] == c[i - |a| - |b|]; }
      }
    }
  }

  /**
   * The track events of an album are exactly the run of the conversion plan
   * once the converter site has been reached, and there are none otherwise.
   * Together with RunShape and ConversionPlanAt: tracks are attempted in
   * index order, each through its ten steps in order, up to the first failure.
   */
  lemma TrackEvents(link: string, coverUrl: string, urls: seq<string>, ok: Oracle)
    ensures var r := Album(link, coverUrl, urls, ok);
      var reached := AllOk(Run(Opening(link, coverUrl), ok)) && AllOk(Run(Collecting(), ok)) &&
        urls != [] && ok(GotoConverter(link));
      Keep(r.events, IsTrackStep) == if reached then Run(ConversionPlan(urls), ok) else []
  {
    var opening := Run(Opening(link, coverUrl), ok);
    var saving := Run(CoverSave(link), ok);
    var collecting := Run(Collecting(), ok);
    var before := opening + saving + collecting;
    NoTrackEvents(Opening(link, coverUrl), ok);
    NoTrackEvents(CoverSave(link), ok);
    NoTrackEvents(Collecting(), ok);
    AlbumEvents(link, coverUrl, urls, ok);
    KeepNone(opening, saving, collecting, IsTrackStep);
    if AllOk(opening) && AllOk(collecting) && urls != [] {
      var converting := Run(Converting(link, urls), ok);
      KeepAppend(before, converting, IsTrackStep);
      ConverterTrackEvents(link, urls, ok);
      assert Keep(before + converting, IsTrackStep) == Keep(converting, IsTrackStep);
    }
  }

  /** Three sequences with nothing to keep leave nothing when concatenated, singly or together. */
  lemma KeepNone(a: seq<Event>, b: seq<Event>, c: seq<Event>, keep: Step -> bool)
    requires Keep(a, keep) == [] && Keep(b, keep) == [] && Keep(c, keep) == []
    ensures Keep(a + b + c, keep) == []
  {
    KeepAppend(a, b, keep);
    KeepAppend(a + b, c, keep);
  }

  /** A plan without track steps runs without track events. */
  lemma NoTrackEvents(plan: seq<Step>, ok: Oracle)
    requires forall i :: 0 <= i < |plan| ==> !plan[i].OnTrack?
    ensures Keep(Run(plan, ok), IsTrackStep) == []
  {
    RunSteps(plan, ok);
    KeepAllOrNone(Run(plan, ok), IsTrackStep);
  }

  /** The track events of the converter phase are the run of the conversion plan, if the converter site opened. */
  lemma ConverterTrackEvents(link: string, urls: seq<string>, ok: Oracle)
    ensures Keep(Run(Converting(link, urls), ok), IsTrackStep) ==
      if ok(GotoConverter(link)) then Run(ConversionPlan(urls), ok) else []
  {
    var plan := ConversionPlan(urls);
    var g := GotoConverter(link);
    var converting := Run(Converting(link, urls), ok);
    assert Converting(link, urls) == [g] + (plan + [CloseBrowser]);
    RunAppend([g], plan + [CloseBrowser], ok);
    if ok(g) {
      assert Run([g], ok) == [Event(g, true)];
      RunAppend(plan, [CloseBrowser], ok);
      var tracks := Run(plan, ok);
      var closing := if AllOk(tracks) then Run([CloseBrowser], ok) else [];
      assert converting == [Event(g, true)] + (tracks + closing);
      TrackRunKept(urls, ok);
      NoTrackEvents([CloseBrowser], ok);
      KeepBetween(Event(g, true), tracks, closing, IsTrackStep);
    } else {
      assert converting == [Event(g, false)];
      KeepAllOrNone(converting, IsTrackStep);
    }
  }

  /** Every event of the track loop's run is a track event. */
  lemma TrackRunKept(urls: seq<string>, ok: Oracle)
    ensures Keep(Run(ConversionPlan(urls), ok), IsTrackStep) == Run(ConversionPlan(urls), ok)
  {
    RunSteps(ConversionPlan(urls), ok);
    KeepAllOrNone(Run(ConversionPlan(urls), ok), IsTrackStep);
  }

  /** Filtering an event that is dropped, then kept events, then dropped ones, leaves the kept ones. */
  lemma KeepBetween(first: Event, kept: seq<Event>, dropped: seq<Event>, keep: Step -> bool)
    requires !keep(first.step)
    requires Keep(kept, keep) == kept && Keep(dropped, keep) == []
    ensures Keep([first] + (kept + dropped), keep) == kept
  {
    KeepAppend([first], kept + dropped, keep);
    KeepAppend(kept, dropped, keep);
    KeepAllOrNone([first], keep);
    assert kept + [] == kept;
  }

  /** A plan of fatal steps runs the same under two oracles that agree on fatal steps. */
  lemma FatalRunAgrees(plan: seq<Step>, ok1: Oracle, ok2: Oracle)
    requires forall i :: 0 <= i < |plan| ==> IsFatal(plan[i])
    requires forall s :: IsFatal(s) ==> ok1(s) == ok2(s)
    ensures Run(plan, ok1) == Run(plan, ok2)
  {
    RunAgree(plan, ok1, ok2);
  }

  /** Filtering out cover saves keeps the whole run of a plan of fatal steps. */
  lemma FatalRunKept(plan: seq<Step>, ok: Oracle)
    requires forall i :: 0 <= i < |plan| ==> IsFatal(plan[i])
    ensures Keep(Run(plan, ok), IsFatal) == Run(plan, ok)
  {
    RunSteps(plan, ok);
    KeepAllOrNone(Run(plan, ok), IsFatal);
  }

  /** Every step of the converter phase is fatal: no failure there is caught inside the album. */
  lemma ConvertingFatal(link: string, urls: seq<string>)
    ensures forall i :: 0 <= i < |Converting(link, urls)| ==> IsFatal(Converting(link, urls)[i])
  {
    var plan := ConversionPlan(urls);
    var converting := Converting(link, urls);
    forall i | 0 <= i < |converting|
      ensures IsFatal(converting[i])
    {
      if 0 < i < |converting| - 1 {
        assert converting[i] == plan[i - 1];
      }
    }
  }

  /** The events of an album, phase by phase. */
  lemma AlbumEvents(link: string, coverUrl: string, urls: seq<string>, ok: Oracle)
    ensures var opening := Run(Opening(link, coverUrl), ok);
      var before := opening + Run(CoverSave(link), ok) + Run(Collecting(), ok);
      Album(link, coverUrl, urls, ok).events ==
        if !AllOk(opening) then opening
        else if !AllOk(Run(Collecting(), ok)) || urls == [] then before
        else before + Run(Converting(link, urls), ok)
  {
  }

  /** Filtering phase by phase: the cover-save phase drops out, the fatal phases stay whole. */
  lemma KeepPhases(a: seq<Event>, b: seq<Event>, c: seq<Event>, d: seq<Event>, events: seq<Event>, x: bool, y: bool)
    requires Keep(a, IsFatal) == a && Keep(b, IsFatal) == [] && Keep(c, IsFatal) == c && Keep(d, IsFatal) == d
    requires events == if x then a else if y then a + b + c else a + b + c + d
    ensures Keep(events, IsFatal) == if x then a else if y then a + c else a + c + d
  {
    if !x {
      var ab := a + b;
      var abc := ab + c;
      KeepAppend(a, b, IsFatal);
      assert a + [] == a;
      assert Keep(ab, IsFatal) == a;
      KeepAppend(ab, c, IsFatal);
      assert Keep(abc, IsFatal) == a + c;
      if !y {
        KeepAppend(abc, d, IsFatal);
        assert Keep(abc + d, IsFatal) == a + c + d;
      }
    }
  }

  /** The fatal events of an album: its runs with the cover save taken out. */
  lemma AlbumFatalEvents(link: string, coverUrl: string, urls: seq<string>, ok: Oracle)
    ensures var opening := Run(Opening(link, coverUrl), ok);
      var collecting := Run(Collecting(), ok);
      Keep(Album(link, coverUrl, urls, ok).events, IsFatal) ==
        if !AllOk(opening) then opening
        else if !AllOk(collecting) || urls == [] then opening + collecting
        else opening + collecting + Run(Converting(link, urls), ok)
  {
    AlbumEvents(link, coverUrl, urls, ok);
    var saving := Run(CoverSave(link), ok);
    FatalRunKept(Opening(link, coverUrl), ok);
    FatalRunKept(Collecting(), ok);
    RunSteps(CoverSave(link), ok);
    KeepAllOrNone(saving, IsFatal);
    ConvertingFatal(link, urls);
    FatalRunKept(Converting(link, urls), ok);
    var opening := Run(Opening(link, coverUrl), ok);
    var collecting := Run(Collecting(), ok);
    var converting := Run(Converting(link, urls), ok);
    var events := Album(link, coverUrl, urls, ok).events;
    KeepPhases(opening, saving, collecting, converting, events, !AllOk(opening), !AllOk(collecting) || urls == []);
  }

  /**
   * Saving the cover cannot change the album's fate (lines 76-85): under two
   * oracles that differ only on `mkdir` and `writeFile`, the album ends the
   * same way and attempts the same other steps with the same results.
   */
  lemma CoverSaveIsolated(link: string, coverUrl: string, urls: seq<string>, ok1: Oracle, ok2: Oracle)
    requires forall s :: IsFatal(s) ==> ok1(s) == ok2(s)
    ensures Album(link, coverUrl, urls, ok1).outcome == Album(link, coverUrl, urls, ok2).outcome
    ensures Keep(Album(link, coverUrl, urls, ok1).events, IsFatal) ==
            Keep(Album(link, coverUrl, urls, ok2).events, IsFatal)
  {
    FatalRunAgrees(Opening(link, coverUrl), ok1, ok2);
    FatalRunAgrees(Collecting(), ok1, ok2);
    ConvertingFatal(link, urls);
    FatalRunAgrees(Converting(link, urls), ok1, ok2);
    AlbumFatalEvents(link, coverUrl, urls, ok1);
    AlbumFatalEvents(link, coverUrl, urls, ok2);
    AlbumOutcomeOfFatalRuns(link, coverUrl, urls, ok1, ok2);
  }

  /** The outcome of an album depends only on its fatal runs. */
  lemma AlbumOutcomeOfFatalRuns(link: string, coverUrl: string, urls: seq<string>, ok1: Oracle, ok2: Oracle)
    requires Run(Opening(link, coverUrl), ok1) == Run(Opening(link, coverUrl), ok2)
    requires Run(Collecting(), ok1) == Run(Collecting(), ok2)
    requires Run(Converting(link, urls), ok1) == Run(Converting(link, urls), ok2)
    ensures Album(link, coverUrl, urls, ok1).outcome == Album(link, coverUrl, urls, ok2).outcome
  {
    assert Run(Collecting(), ok1) != [];
  }

  /** A failed cover fetch (line 75, outside the inner try) abandons the album before anything is saved or scrolled. */
  lemma CoverFetchFailureAborts(link: string, coverUrl: string, urls: seq<string>, ok: Oracle)
    requires ok(Launch) && ok(OpenPage) && ok(GotoAlbum(link)) && ok(ReadCover)
    requires !ok(FetchCover(coverUrl))
    ensures Album(link, coverUrl, urls, ok) ==
      AlbumRun([Event(Launch, true), Event(OpenPage, true), Event(GotoAlbum(link), true),
                Event(ReadCover, true), Event(FetchCover(coverUrl), false)],
               Aborted(StepFailed(FetchCover(coverUrl))))
  {
    RunShape(Opening(link, coverUrl), ok);
  }

  /** A failed `mkdir` is logged and the album goes on to scroll the page (lines 83-88). */
  lemma CoverSaveFailureContinues(link: string, coverUrl: string, urls: seq<string>, ok: Oracle)
    requires ok(Launch) && ok(OpenPage) && ok(GotoAlbum(link)) && ok(ReadCover) && ok(FetchCover(coverUrl))
    requires !ok(MakeCoverDir(AlbumName(link)))
    ensures var r := Album(link, coverUrl, urls, ok);
      |r.events| >= 7 && r.events[5] == Event(MakeCoverDir(AlbumName(link)), false) &&
      r.events[6] == Event(Scroll, ok(Scroll))
  {
    RunShape(Opening(link, coverUrl), ok);
    RunShape(Collecting(), ok);
  }
}
