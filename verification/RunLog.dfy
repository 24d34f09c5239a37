/**
 * What can be read from a run's log afterwards, whatever order its records are found
 * in and whatever other deployments have logged.
 */
module RunLog {
  import opened Base
  import opened Events
  import opened Models
  import opened Cluster
  import opened Timeline
  import opened ReplayState
  import opened Shuffle
  import opened RunFacts
  import opened Activities
  import opened Courses
  import opened Journals
  import Lineage

  // ---------- Scoping to one deployment ----------

  predicate Mentions(e: Event, deployment: string) {
    e.deployment == deployment || e.correlation == deployment
  }

  lemma {:induction false} ScopeCounts(log: seq<Event>, deployment: string, e: Event)
    ensures multiset(Scope(log, Some(deployment)))[e] == if Mentions(e, deployment) then multiset(log)[e] else 0
  {
    if log != [] {
      SplitLast(log);
      ScopeCounts(Init(log), deployment, e);
    }
  }

  ghost predicate Foreign(log: seq<Event>, deployment: string) {
    forall e | e in log :: !Mentions(e, deployment)
  }

  // Of any permutation of the log, exactly the run's own records are in scope.
  lemma ScopeIsOwn(log: seq<Event>, prior: seq<Event>, own: seq<Event>, deployment: string)
    requires multiset(log) == multiset(prior + own)
    requires Foreign(prior, deployment) && Owned(own, deployment)
    ensures multiset(Scope(log, Some(deployment))) == multiset(own)
  {
    var scoped := Scope(log, Some(deployment));
    assert multiset(prior + own) == multiset(prior) + multiset(own);
    forall e ensures multiset(scoped)[e] == multiset(own)[e] {
      ScopeCounts(log, deployment, e);
      assert e in prior <==> e in multiset(prior);
      assert e in own <==> e in multiset(own);
    }
  }

  // ---------- Names ----------

  // The same records in another order, or some of them, are still well named.
  lemma {:induction false} StillUnique(all: seq<Event>, some: seq<Event>)
    requires UniqueIds(all) && NoDup(some) && forall e | e in some :: e in all && e.id != ""
    ensures UniqueIds(some)
  {
    if some != [] {
      SplitLast(some);
      StillUnique(all, Init(some));
      UniqueById(all, Last(some));
      forall e | e in Init(some) ensures e.id != Last(some).id {
        UniqueById(all, e);
      }
    }
  }

  lemma OwnNoDup(prior: seq<Event>, own: seq<Event>, scoped: seq<Event>)
    requires WellNamed(prior + own) && forall e | e in prior + own :: e.id != ""
    requires multiset(scoped) == multiset(own)
    ensures WellNamed(scoped) && forall e | e in scoped :: e.id != ""
  {
    UniqueNoDup(prior + own);
    NoDupConcat(prior, own);
    NoDupPermute(scoped, own);
    SameElems(scoped, own);
    forall e | e in scoped ensures e in prior + own && e.id != "" && e.id != ROOT {
      assert e in own;
      assert e in prior + own;
    }
    StillUnique(prior + own, scoped);
  }

  lemma OwnInterleaves(p: Page, heading: Heading, prior: seq<Event>, scoped: seq<Event>)
    requires Kept(heading, p) && p.chain != []
    requires WellNamed(prior + p.own) && forall e | e in prior + p.own :: e.id != ""
    requires multiset(scoped) == multiset(p.own)
    ensures Interleaves(scoped, p.chain, p.others)
    ensures forall e | e in p.others :: Inert(e.body)
  {
    OwnNoDup(prior, p.own, scoped);
    MergedLinks(p.own, p.chain, p.others);
    MergedMultiset(p.own, p.chain, p.others);
    LinkedIsChain(p.chain);
  }

  // ---------- Reading the log back ----------

  // `log` holds all that is in the journal's log, in any order.
  ghost predicate ReadBack(j: Journal, log: seq<Event>)
    reads j, j.logger
  {
    j.Valid() && Foreign(j.prior, j.heading.deployment) && multiset(log) == multiset(j.logger.events)
  }

  lemma ReadBackInterleaves(j: Journal, log: seq<Event>)
    requires ReadBack(j, log) && Last(j.pages).chain != []
    ensures var p := Last(j.pages);
            && Kept(j.heading, p) && j.view == p.view && j.phase == p.phase
            && Interleaves(Scope(log, Some(j.heading.deployment)), p.chain, p.others)
            && forall e | e in p.others :: Inert(e.body)
  {
    var p := Last(j.pages);
    BookKept(j.heading, j.pages);
    MintedUnique(j.logger.events, j.logger.mint);
    ScopeIsOwn(log, j.prior, p.own, j.heading.deployment);
    OwnInterleaves(p, j.heading, j.prior, Scope(log, Some(j.heading.deployment)));
  }

  // The timeline holds the run's chain unbroken, in the order of logging.
  lemma ChainRecovered(j: Journal, log: seq<Event>) returns (before: seq<Event>, after: seq<Event>)
    requires ReadBack(j, log) && Last(j.pages).chain != []
    ensures TimelineOf(Scope(log, Some(j.heading.deployment))) == before + Last(j.pages).chain + after
    ensures forall e | e in before + after :: e in Last(j.pages).others
  {
    ReadBackInterleaves(j, log);
    before, after := ShuffleRecovery(Scope(log, Some(j.heading.deployment)), Last(j.pages).chain, Last(j.pages).others);
  }

  // The state rebuilt at the chain's `k`-th event.
  ghost predicate RebuiltAt(timeline: seq<Event>, p: Page, k: nat)
    requires k < |p.chain| == |p.snaps|
  {
    var view := Replay(p.chain[..k + 1]);
    && EndsIn(timeline, p.chain[k].id, view)
    && Tells(view, p.chain[k].body, p.snaps[k])
    && (k == |p.chain| - 1 ==> view == p.view)
  }

  lemma ViewAt(h: Heading, p: Page, k: nat)
    requires Kept(h, p) && k < |p.chain| == |p.snaps|
    ensures Tells(Replay(p.chain[..k + 1]), p.chain[k].body, p.snaps[k])
    ensures k == |p.chain| - 1 ==> Replay(p.chain[..k + 1]) == p.view
  {
    TracksAt(p.chain, p.snaps, k);
    assert p.chain[..|p.chain|] == p.chain;
  }

  lemma PageRebuilt(h: Heading, p: Page, scoped: seq<Event>, k: nat)
    requires Kept(h, p) && Interleaves(scoped, p.chain, p.others) && k < |p.chain| == |p.snaps|
    requires forall e | e in p.others :: Inert(e.body)
    ensures RebuiltAt(TimelineOf(scoped), p, k)
  {
    ViewAt(h, p, k);
    ReplayOfShuffle(scoped, p.chain, p.others, k);
  }

  // The state rebuilt at any event of the run is the fold of its chain up to there; at
  // a stage transition it is just the servers updated by then, each at the version it
  // had at that moment; and at the last event it is the view that the run ended with.
  lemma RunRebuilt(j: Journal, log: seq<Event>, k: nat)
    requires ReadBack(j, log) && k < |Last(j.pages).chain|
    ensures |Last(j.pages).snaps| == |Last(j.pages).chain| && j.view == Last(j.pages).view
    ensures RebuiltAt(TimelineOf(Scope(log, Some(j.heading.deployment))), Last(j.pages), k)
  {
    ReadBackInterleaves(j, log);
    TracksLength(Last(j.pages).chain, Last(j.pages).snaps);
    PageRebuilt(j.heading, Last(j.pages), Scope(log, Some(j.heading.deployment)), k);
  }

  lemma TracksLength(chain: seq<Event>, snaps: seq<Position>)
    requires Tracks(chain, snaps)
    ensures |chain| == |snaps|
  {
  }

  // The state rebuilt at the event called `id` shows just the servers `ids`, as they
  // are in `servers`.
  ghost predicate ShownAt(timeline: seq<Event>, id: EventId, ids: set<ServerId>, servers: Servers) {
    var n := StepIndex(timeline, id);
    n < |timeline| && Shows(Replay(timeline[..n + 1]), ids, servers)
  }

  lemma AtTransition(timeline: seq<Event>, p: Page, k: nat)
    requires k < |p.chain| == |p.snaps| && RebuiltAt(timeline, p, k) && p.chain[k].body.StageTransition?
    ensures var e, at := p.chain[k], p.snaps[k];
            && at.results != [] && Last(at.results).stage == e.body.stage && Last(at.results).updated == e.body.updated
            && ShownAt(timeline, e.id, Elems(at.updated), at.now)
  {
  }

  lemma TransitionShown(j: Journal, log: seq<Event>, k: nat)
    requires ReadBack(j, log) && k < |Last(j.pages).chain| && Last(j.pages).chain[k].body.StageTransition?
    ensures |Last(j.pages).snaps| == |Last(j.pages).chain|
    ensures var e, at := Last(j.pages).chain[k], Last(j.pages).snaps[k];
            && at.results != [] && Last(at.results).stage == e.body.stage && Last(at.results).updated == e.body.updated
            && ShownAt(TimelineOf(Scope(log, Some(j.heading.deployment))), e.id, Elems(at.updated), at.now)
  {
    RunRebuilt(j, log, k);
    AtTransition(TimelineOf(Scope(log, Some(j.heading.deployment))), Last(j.pages), k);
  }

  lemma WholeChain(timeline: seq<Event>, chain: seq<Event>)
    requires chain != [] && EndsIn(timeline, chain[|chain| - 1].id, Replay(chain[..|chain| - 1 + 1]))
    ensures EndsIn(timeline, Last(chain).id, Replay(chain))
  {
    assert chain[..|chain| - 1 + 1] == chain;
  }

  lemma PageEnds(h: Heading, p: Page, scoped: seq<Event>)
    requires Kept(h, p) && Interleaves(scoped, p.chain, p.others) && p.chain != []
    requires forall e | e in p.others :: Inert(e.body)
    ensures EndsIn(TimelineOf(scoped), Last(p.chain).id, p.view)
  {
    ReplayOfShuffle(scoped, p.chain, p.others, |p.chain| - 1);
    WholeChain(TimelineOf(scoped), p.chain);
  }

  lemma LastRebuilt(j: Journal, log: seq<Event>)
    requires ReadBack(j, log) && Last(j.pages).chain != []
    ensures EndsIn(TimelineOf(Scope(log, Some(j.heading.deployment))), Last(Last(j.pages).chain).id, j.view)
  {
    ReadBackInterleaves(j, log);
    PageEnds(j.heading, Last(j.pages), Scope(log, Some(j.heading.deployment)));
  }

  // ---------- Its servers' health ----------

  lemma PrefixOneRun(chain: seq<Event>, stages: nat, maxRetries: nat, k: nat)
    requires PhaseOf(chain, stages, maxRetries) != Wrong && k < |chain|
    ensures OneRun(chain[..k + 1])
  {
    BeginsWell(chain, stages, maxRetries);
    forall i | 0 < i < |chain| ensures !chain[i].body.DeploymentStart? {
      StartsOnce(chain, stages, maxRetries, i);
    }
    forall i | 0 <= i < |chain| - 1 ensures !chain[i].body.RollbackComplete? {
      ClosesOnce(chain, stages, maxRetries, i);
    }
  }

  // The state rebuilt at the event called `step` tells of the server what `chain` does.
  ghost predicate ToldAt(timeline: seq<Event>, step: EventId, chain: seq<Event>, id: ServerId)
    requires OneRun(chain)
  {
    var n := StepIndex(timeline, step);
    n < |timeline| && ToldOf(chain, id, Replay(timeline[..n + 1]))
  }

  lemma HealthAt(timeline: seq<Event>, step: EventId, chain: seq<Event>, id: ServerId)
    requires OneRun(chain) && EndsIn(timeline, step, Replay(chain))
    ensures ToldAt(timeline, step, chain, id)
  {
    ServerTold(chain, id);
  }

  // From the whole log in any order, the state rebuilt at any event of the run knows
  // just the servers listed by then, and of each the version and the health that the
  // run's transitions, failed checks and closing rollback tell.
  lemma HealthRebuilt(j: Journal, log: seq<Event>, k: nat, id: ServerId)
    requires ReadBack(j, log) && k < |Last(j.pages).chain| && j.phase != Wrong
    ensures OneRun(Last(j.pages).chain[..k + 1])
    ensures ToldAt(TimelineOf(Scope(log, Some(j.heading.deployment))), Last(j.pages).chain[k].id, Last(j.pages).chain[..k + 1], id)
  {
    var chain := Last(j.pages).chain;
    ReadBackInterleaves(j, log);
    PrefixOneRun(chain, j.heading.stages, j.heading.maxRetries, k);
    ReplayOfShuffle(Scope(log, Some(j.heading.deployment)), chain, Last(j.pages).others, k);
    HealthAt(TimelineOf(Scope(log, Some(j.heading.deployment))), chain[k].id, chain[..k + 1], id);
  }

  // ---------- Its lineage ----------

  lemma EdgeUp(log: seq<Event>, chain: seq<Event>, others: seq<Event>, p: EventId, c: EventId, i: nat)
    requires Interleaves(log, chain, others) && Lineage.ParentEdge(log, p, c)
    requires i < |chain| && chain[i].id == p
    ensures i + 1 < |chain| && chain[i + 1].id == c
  {
    var e :| e in log && Lineage.Names(e, p, c);
    InLog(log, chain, others, e);
    var j :| 0 <= j < |chain| && chain[j] == e;
    ChainDistinct(log, chain, others, j - 1, i);
  }

  lemma {:induction false} PathUp(log: seq<Event>, chain: seq<Event>, others: seq<Event>, p: seq<EventId>, i: nat)
    requires Interleaves(log, chain, others) && p != []
    requires forall n | 0 <= n < |p| - 1 :: Lineage.ParentEdge(log, p[n], p[n + 1])
    requires i < |chain| && chain[i].id == p[0]
    ensures i + |p| - 1 < |chain| && chain[i + |p| - 1].id == Last(p)
  {
    if |p| > 1 {
      PathUp(log, chain, others, Init(p), i);
      EdgeUp(log, chain, others, p[|p| - 2], p[|p| - 1], i + |p| - 2);
    }
  }

  // A chain with parentless records in between always passes verification.
  lemma InterleavedAccepted(log: seq<Event>, chain: seq<Event>, others: seq<Event>)
    requires Interleaves(log, chain, others)
    ensures Lineage.Accepts(log)
  {
    forall p | Lineage.ParentCycle(log, p) ensures false {
      var e :| e in log && Lineage.Names(e, p[0], p[1]);
      InLog(log, chain, others, e);
      var j :| 0 <= j < |chain| && chain[j] == e;
      PathUp(log, chain, others, p, j - 1);
      ChainDistinct(log, chain, others, j - 1, j - 1 + |p| - 1);
    }
    forall e | e in log && e.parent != "" ensures exists f :: f in log && f.id == e.parent {
      InLog(log, chain, others, e);
      var j :| 0 <= j < |chain| && chain[j] == e;
      InLog(log, chain, others, chain[j - 1]);
    }
    Lineage.LineageVerdict(log);
  }

  lemma RunAccepted(j: Journal, log: seq<Event>)
    requires ReadBack(j, log) && Last(j.pages).chain != []
    ensures Lineage.Accepts(Scope(log, Some(j.heading.deployment)))
  {
    ReadBackInterleaves(j, log);
    InterleavedAccepted(Scope(log, Some(j.heading.deployment)), Last(j.pages).chain, Last(j.pages).others);
  }

  // ---------- Its grammar ----------

  // A finished run's chain is a start, a snapshot, and then stages, up to one closing
  // event, the last; and a rollback once initiated excludes DEPLOYMENT_FAILED.
  lemma RunGrammar(j: Journal)
    requires j.Valid() && j.phase.Ended?
    ensures var chain, h := Last(j.pages).chain, j.heading;
            && PhaseOf(chain, h.stages, h.maxRetries) == j.phase
            && |chain| > 2 && chain[0].body.DeploymentStart? && chain[1].body.SnapshotCreate?
            && (forall k | 0 <= k < |chain| :: Closes(chain[k].body) <==> k == |chain| - 1)
            && EndingOf(Last(chain).body) == j.phase.ending
            && CountsUp(Transitions(chain))
            && ((exists k :: 0 <= k < |chain| && chain[k].body.RollbackInitiated?) ==>
                  j.phase == Ended(EndRolledBack) && forall k | 0 <= k < |chain| :: !chain[k].body.DeploymentFailed?)
  {
    var chain, h := Last(j.pages).chain, j.heading;
    BookKept(h, j.pages);
    BeginsWell(chain, h.stages, h.maxRetries);
    StagesInOrder(chain, h.stages, h.maxRetries);
    EndsOnce(chain, h.stages, h.maxRetries, j.phase.ending);
    if k :| 0 <= k < |chain| && chain[k].body.RollbackInitiated? {
      RollbackExcludesFailure(chain, h.stages, h.maxRetries, k);
    }
  }

  lemma EndsOnce(chain: seq<Event>, stages: nat, maxRetries: nat, ending: Ending)
    requires PhaseOf(chain, stages, maxRetries) == Ended(ending) && |chain| > 1 && chain[1].body.SnapshotCreate?
    ensures |chain| > 2 && forall k | 0 <= k < |chain| :: Closes(chain[k].body) <==> k == |chain| - 1
    ensures EndingOf(Last(chain).body) == ending
  {
    forall k | 0 <= k < |chain| ensures Closes(chain[k].body) <==> k == |chain| - 1 {
      ClosesOnce(chain, stages, maxRetries, k);
    }
    ClosesOnce(chain, stages, maxRetries, |chain| - 1);
  }
}
