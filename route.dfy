/**
 * The API route `handler` (download.ts lines 22-156): it rejects a request
 * without a `links` parameter, splits the parameter on ',', processes the
 * links one after another (`eachSeries`, line 153) and answers 200 with the
 * link list.
 */
module Route {
  import opened Wrappers
  import opened Text
  import opened Pipeline

  /** The `links` query parameter: absent, or the string given. */
  datatype Query = Absent | Present(value: string)

  /** The route's answer: the error thrown at line 28, or the JSON body `{ links }` with its status (line 155). */
  datatype Response = Thrown(message: string) | Json(status: nat, links: seq<string>)

  /** What the i-th album attempt meets: the page of its link and which of its steps succeed. */
  datatype World = World(page: AlbumPage, ok: Oracle)

  const MissingLinks: string := "provide `links` query param"

  /**
   * The link list of lines 26-30: none when the parameter is absent or empty
   * (`!linksParam`), otherwise the parameter split on ','.
   */
  function Links(q: Query): (links: Option<seq<string>>)
    ensures links.None? <==> q.Absent? || q.value == ""
    ensures links.Some? ==> |links.value| == multiset(q.value)[','] + 1
    ensures links.Some? ==> Join(links.value, ',') == q.value
    ensures links.Some? ==> forall i :: 0 <= i < |links.value| ==> ',' !in links.value[i]
  {
    if q.Absent? || q.value == "" then None
    else
      SplitCount(q.value, ',');
      JoinSplit(q.value, ',');
      Some(Split(q.value, ','))
  }

  /** A worked instance: two comma-separated links give exactly those two links. */
  lemma TwoLinks()
    ensures Links(Present("a/x,b/y")) == Some(["a/x", "b/y"])
  {
    var parts := ["a/x", "b/y"];
    assert Join(parts, ',') == "a/x" + [','] + "b/y" == "a/x,b/y";
    assert ',' !in parts[0] && ',' !in parts[1];
    SplitJoin(parts, ',');
  }

  /** What one album attempt does, given the world it meets. */
  function Attempt(link: string, w: World): AlbumRun
  {
    Album(link, ParseCoverUrl(w.page.coverStyle), w.page.trackUrls, w.ok)
  }

  /** `processLink` (lines 32-151) on one link and the world it meets. */
  method AttemptLink(link: string, w: World) returns (run: AlbumRun)
    ensures run == Attempt(link, w)
  {
    run := ProcessLink(link, w.page, w.ok);
  }

  /** f applied to each element of xs together with its position. */
  function Indexed<A, B>(xs: seq<A>, f: (A, nat) -> B): (ys: seq<B>)
    ensures |ys| == |xs|
    decreases |xs|
  {
    if xs == [] then []
    else Indexed(xs[..|xs| - 1], f) + [f(xs[|xs| - 1], |xs| - 1)]
  }

  /** Position i of Indexed(xs, f) is f at xs[i] and i. */
  lemma {:induction false} IndexedAt<A, B>(xs: seq<A>, f: (A, nat) -> B, i: nat)
    requires i < |xs|
    ensures Indexed(xs, f)[i] == f(xs[i], i)
    decreases |xs|
  {
    var n := |xs| - 1;
    if i < n {
      IndexedAt(xs[..n], f, i);
    }
  }

  /** Extending the list by its next element extends the mapped list by f at that element. */
  lemma IndexedSnoc<A, B>(xs: seq<A>, f: (A, nat) -> B, i: nat)
    requires i < |xs|
    ensures Indexed(xs[..i + 1], f) == Indexed(xs[..i], f) + [f(xs[i], i)]
  {
    assert xs[..i + 1][..i] == xs[..i];
  }

  /** The album attempts of a batch, in link order, the i-th meeting world(i). */
  function Batch(links: seq<string>, world: nat -> World): (runs: seq<AlbumRun>)
    ensures |runs| == |links|
  {
    Indexed(links, (link, i) => Attempt(link, world(i)))
  }

  /** The i-th attempt of a batch is the i-th link against the i-th world. */
  lemma BatchAt(links: seq<string>, world: nat -> World, i: nat)
    requires i < |links|
    ensures Batch(links, world)[i] == Attempt(links[i], world(i))
  {
    IndexedAt(links, (link, i) => Attempt(link, world(i)), i);
  }

  /** The attempts of the first i + 1 links are those of the first i, then link i against world i. */
  lemma BatchSnoc(links: seq<string>, world: nat -> World, i: nat)
    requires i < |links|
    ensures Batch(links[..i + 1], world) == Batch(links[..i], world) + [Attempt(links[i], world(i))]
  {
    IndexedSnoc(links, (link, i) => Attempt(link, world(i)), i);
  }

  /** `eachSeries(links, processLink)` (line 153): the links one after another, each album in turn. */
  method AttemptAll(links: seq<string>, world: nat -> World) returns (runs: seq<AlbumRun>)
    ensures runs == Batch(links, world)
  {
    runs := [];
    var i := 0;
    while i < |links|
      invariant 0 <= i <= |links|
      invariant runs == Batch(links[..i], world)
    {
      var run := AttemptLink(links[i], world(i));
      BatchSnoc(links, world, i);
      runs := runs + [run];
      i := i + 1;
    }
    assert links[..i] == links;
  }

  /**
   * The request handler. Without links it throws before any link is
   * processed. Otherwise every link is attempted, strictly in order, the
   * i-th meeting world(i); each album's failure is caught inside
   * `processLink`, so no album stops the batch, and the answer is status 200
   * with exactly the split link list.
   */
  method Handler(q: Query, world: nat -> World) returns (response: Response, runs: seq<AlbumRun>)
    ensures Links(q).None? ==> response == Thrown(MissingLinks) && runs == []
    ensures Links(q).Some? ==> response == Json(200, Links(q).value)
    ensures Links(q).Some? ==> runs == Batch(Links(q).value, world)
  {
    var parsed := Links(q);
    if parsed.None? {
      return Thrown(MissingLinks), [];
    }
    var links := parsed.value;
    runs := AttemptAll(links, world);
    response := Json(200, links);
  }
}
