/**
 * The chain of events that a run records (deploy/workflows.py, record_event), each
 * naming the one before as its parent, with where the run stood at each; and what
 * replaying the chain tells.
 */
module Journals {
  import opened Base
  import opened Events
  import opened Models
  import opened Cluster
  import opened ReplayState
  import opened Shuffle
  import opened RunFacts
  import opened Courses
  import opened Activities

  // What a run has put in the log: its chain, the records made on the side, and, with
  // each chain event, where the run stood then; and what the chain comes to.
  datatype Page = Page(
    own: seq<Event>,
    chain: seq<Event>,
    others: seq<Event>,
    snaps: seq<Position>,
    phase: Phase,
    view: View)

  const FIRST := Page([], [], [], [], Fresh, BLANK)

  datatype Heading = Heading(deployment: string, stages: nat, maxRetries: nat)

  function HeadOf(chain: seq<Event>): EventId {
    if chain == [] then "" else Last(chain).id
  }

  // A stage transition tells of the last result, and with it the chain rebuilds the
  // cluster: just the servers updated so far, each at its real version.
  ghost predicate Tells(view: View, body: Body, p: Position) {
    body.StageTransition? ==>
      && p.results != [] && Last(p.results).stage == body.stage && Last(p.results).updated == body.updated
      && Shows(view, Elems(p.updated), p.now)
  }

  ghost predicate Tracks(chain: seq<Event>, snaps: seq<Position>) {
    && |chain| == |snaps|
    && (chain == [] || (Tracks(Init(chain), Init(snaps)) && Tells(Replay(chain), Last(chain).body, Last(snaps))))
  }

  lemma {:induction false} TracksAt(chain: seq<Event>, snaps: seq<Position>, k: nat)
    requires Tracks(chain, snaps) && k < |chain|
    ensures k < |snaps| && Tells(Replay(chain[..k + 1]), chain[k].body, snaps[k])
  {
    if k == |chain| - 1 {
      assert chain[..k + 1] == chain;
    } else {
      TracksAt(Init(chain), Init(snaps), k);
      assert Init(chain)[..k + 1] == chain[..k + 1];
    }
  }

  lemma TracksMore(chain: seq<Event>, snaps: seq<Position>, e: Event, p: Position)
    requires Tracks(chain, snaps) && Tells(Apply(Replay(chain), e.body), e.body, p)
    ensures Tracks(chain + [e], snaps + [p])
  {
    ReplayMore(chain, e);
    InitMore(chain, e);
    InitMore(snaps, p);
  }

  // What was noted were stops on the run's course.
  ghost predicate Within(snaps: seq<Position>, path: seq<Position>) {
    snaps == [] || (Within(Init(snaps), path) && Last(snaps) in path)
  }

  lemma {:induction false} WithinLonger(snaps: seq<Position>, path: seq<Position>, q: Position)
    requires Within(snaps, path)
    ensures Within(snaps, path + [q])
  {
    if snaps != [] { WithinLonger(Init(snaps), path, q); }
  }

  lemma WithinMore(snaps: seq<Position>, path: seq<Position>, p: Position)
    requires Within(snaps, path) && p in path
    ensures Within(snaps + [p], path)
  {
    InitMore(snaps, p);
  }

  lemma {:induction false} WithinAt(snaps: seq<Position>, path: seq<Position>, k: nat)
    requires Within(snaps, path) && k < |snaps|
    ensures snaps[k] in path
  {
    if k < |snaps| - 1 { WithinAt(Init(snaps), path, k); }
  }

  // ---------- How the book goes on ----------

  ghost predicate Linking(h: Heading, p: Page, q: Page, e: Event, at: Position) {
    && e.parent == HeadOf(p.chain) && e.deployment == e.correlation == h.deployment
    && Tells(Apply(p.view, e.body), e.body, at)
    && q == Page(p.own + [e], p.chain + [e], p.others, p.snaps + [at],
                 Advance(p.phase, e.body, h.stages, h.maxRetries), Apply(p.view, e.body))
  }

  ghost predicate Siding(h: Heading, p: Page, q: Page, records: seq<Event>) {
    AllAside(records, h.deployment) && q == p.(own := p.own + records, others := p.others + records)
  }

  ghost predicate Turns(h: Heading, p: Page, q: Page) {
    || (exists e, at :: Linking(h, p, q, e, at))
    || (exists records :: Siding(h, p, q, records))
  }

  ghost predicate Book(h: Heading, pages: seq<Page>)
    decreases |pages|, 0
  {
    pages != [] && PageFits(h, Init(pages), Last(pages))
  }

  ghost predicate PageFits(h: Heading, pages: seq<Page>, q: Page)
    decreases |pages|, 1
  {
    if pages == [] then q == FIRST else Book(h, pages) && Turns(h, Last(pages), q)
  }

  lemma BookBegins(h: Heading)
    ensures Book(h, [FIRST])
  {
  }

  lemma BookGoesOn(h: Heading, pages: seq<Page>, q: Page)
    requires Book(h, pages) && Turns(h, Last(pages), q)
    ensures Book(h, pages + [q]) && Last(pages + [q]) == q
  {
    InitMore(pages, q);
    assert PageFits(h, pages, q);
  }

  // ---------- What every page tells ----------

  ghost predicate Kept(h: Heading, p: Page) {
    && Owned(p.own, h.deployment) && Merged(p.own, p.chain, p.others) && Tracks(p.chain, p.snaps)
    && p.phase == PhaseOf(p.chain, h.stages, h.maxRetries)
    && p.view == Replay(p.chain)
  }

  lemma KeptLinking(h: Heading, p: Page, q: Page, e: Event, at: Position)
    requires Kept(h, p) && Linking(h, p, q, e, at)
    ensures Kept(h, q)
  {
    MergedChain(p.own, p.chain, p.others, e);
    ReplayMore(p.chain, e);
    PhaseMore(p.chain, e, h.stages, h.maxRetries);
    TracksMore(p.chain, p.snaps, e, at);
  }

  lemma {:induction false} KeptSiding(h: Heading, p: Page, q: Page, records: seq<Event>)
    requires Kept(h, p) && Siding(h, p, q, records)
    ensures Kept(h, q)
  {
    MergedOthers(p.own, p.chain, p.others, records);
  }

  lemma {:induction false} MergedOthers(own: seq<Event>, chain: seq<Event>, others: seq<Event>, records: seq<Event>)
    requires Merged(own, chain, others) && forall e | e in records :: Aside(e)
    ensures Merged(own + records, chain, others + records)
  {
    if records == [] {
      assert own + records == own && others + records == others;
    } else {
      SplitLast(records);
      assert forall e | e in Init(records) :: e in records;
      MergedOthers(own, chain, others, Init(records));
      MergedOther(own + Init(records), chain, others + Init(records), Last(records));
      ConcatAssoc3(own, Init(records), [Last(records)]);
      ConcatAssoc3(others, Init(records), [Last(records)]);
    }
  }

  lemma {:induction false} BookKept(h: Heading, pages: seq<Page>)
    requires Book(h, pages)
    ensures Kept(h, Last(pages))
  {
    var q := Last(pages);
    assert PageFits(h, Init(pages), q);
    if |pages| > 1 {
      var p := Last(Init(pages));
      BookKept(h, Init(pages));
      if e, at :| Linking(h, p, q, e, at) {
        KeptLinking(h, p, q, e, at);
      } else {
        var records :| Siding(h, p, q, records);
        KeptSiding(h, p, q, records);
      }
    }
  }

  // ---------- The journal ----------

  class Journal {
    const logger: AuditLogger
    const heading: Heading
    var lastEventId: EventId
    ghost const prior: seq<Event>
    ghost var pages: seq<Page>
    ghost var phase: Phase
    ghost var view: View

    ghost predicate Holds(log: seq<Event>)
      reads this
    {
      && Book(heading, pages)
      && log == prior + Last(pages).own && lastEventId == HeadOf(Last(pages).chain)
      && phase == Last(pages).phase && view == Last(pages).view
    }

    ghost predicate Valid()
      reads this, logger
    {
      logger.Valid() && Holds(logger.events)
    }

    constructor (logger: AuditLogger, heading: Heading)
      requires logger.Valid()
      ensures this.logger == logger && this.heading == heading
      ensures Valid() && phase == Fresh && view == BLANK && pages == [FIRST]
      ensures prior == logger.events
    {
      this.logger, this.heading := logger, heading;
      lastEventId := "";
      prior, pages, phase, view := logger.events, [FIRST], Fresh, BLANK;
      new;
      BookBegins(heading);
    }

    ghost method Turn(q: Page)
      requires Book(heading, pages) && Turns(heading, Last(pages), q) && logger.Valid()
      requires logger.events == prior + q.own && lastEventId == HeadOf(q.chain)
      modifies this`pages, this`phase, this`view
      ensures Valid() && Last(pages) == q
    {
      BookGoesOn(heading, pages, q);
      pages := pages + [q];
      phase, view := q.phase, q.view;
    }

    // Where the run stands is noted with the event.
    method Record(body: Body, ghost at: Position)
      requires Valid() && Tells(Apply(view, body), body, at)
      modifies this, logger
      ensures Valid() && Last(pages).snaps == old(Last(pages)).snaps + [at]
      ensures phase == Advance(old(phase), body, heading.stages, heading.maxRetries)
      ensures view == Apply(old(view), body)
    {
      ghost var p := Last(pages);
      lastEventId := logger.Log(heading.deployment, body, lastEventId);
      ghost var e := Last(logger.events);
      ghost var q := Page(p.own + [e], p.chain + [e], p.others, p.snaps + [at],
                          Advance(p.phase, body, heading.stages, heading.maxRetries), Apply(p.view, body));
      ConcatAssoc3(prior, p.own, [e]);
      assert Linking(heading, p, q, e, at);
      Turn(q);
    }

    // Records made on the side have been logged.
    ghost method Absorb(log: seq<Event>, records: seq<Event>)
      requires Holds(log) && logger.Valid() && logger.events == log + records && AllAside(records, heading.deployment)
      modifies this`pages
      ensures Valid() && Last(pages).snaps == old(Last(pages)).snaps
    {
      var p := Last(pages);
      var q := p.(own := p.own + records, others := p.others + records);
      ConcatAssoc3(prior, p.own, records);
      assert Siding(heading, p, q, records);
      BookGoesOn(heading, pages, q);
      pages := pages + [q];
    }

    method RecordAside(bodies: seq<Body>)
      requires Valid() && forall b | b in bodies :: Inert(b)
      modifies this`pages, logger
      ensures Valid() && Last(pages).snaps == old(Last(pages)).snaps
    {
      for i := 0 to |bodies|
        invariant Valid() && Last(pages).snaps == old(Last(pages)).snaps
      {
        assert bodies[i] in bodies;
        ghost var log := logger.events;
        var _ := logger.Log(heading.deployment, bodies[i], "");
        Absorb(log, [Last(logger.events)]);
      }
    }
  }
}
