/** What the invariant of runs says about every reachable state, in plain terms. */
module RuntimeGuarantees {
  import opened Basics
  import opened Board
  import opened RuntimeTables
  import opened Publication
  import opened RuntimeSafety
  import opened RuntimeConsistency
  import opened RuntimeRuns

  /** The attempts of `e` carry the numbers 1..k, and a live one carries the last. */
  ghost predicate NumberedTo(b: Board, e: Id, k: nat) {
    && k <= MAX_ATTEMPTS
    && (forall a :: a in b.attempts && b.attempts[a].execution == e ==> 1 <= b.attempts[a].number <= k)
    && (forall n :: 1 <= n <= k ==> NumberTaken(b.attempts, e, n))
    && (forall a :: a in b.attempts && b.attempts[a].execution == e && Live(b.attempts[a].status) ==>
       b.attempts[a].number == k)
  }

  lemma NumbersEnd(b: Board, e: Id) returns (k: nat)
    requires RowsValid(b) && Numbered(b.attempts)
    ensures NumberedTo(b, e, k)
  {
    k := MAX_ATTEMPTS;
    while k > 0 && !NumberTaken(b.attempts, e, k)
      invariant k <= MAX_ATTEMPTS
      invariant forall a :: a in b.attempts && b.attempts[a].execution == e ==> b.attempts[a].number <= k
    {
      k := k - 1;
    }
    if k > 0 {
      var last :| last in b.attempts && b.attempts[last].execution == e && b.attempts[last].number == k;
      forall n | 1 <= n <= k ensures NumberTaken(b.attempts, e, n) {
        assert NumberTaken(b.attempts, b.attempts[last].execution, n);
      }
    }
  }

  /** In every reachable state: attempts are numbered 1..k with k at most 4, exactly a running
      execution has a live attempt, which is alone and number k, and inputs are as the status of
      their attempt or execution says. */
  lemma SingleAuthority(w: World, steps: seq<Step>)
    requires Reliable(w)
    ensures var b := Execute(w, steps).tables.board;
            && (forall e :: e in b.executions ==> exists k :: NumberedTo(b, e, k))
            && (forall a, c :: a in b.attempts && c in b.attempts
                               && b.attempts[a].execution == b.attempts[c].execution ==>
                  (b.attempts[a].number == b.attempts[c].number
                    || (Live(b.attempts[a].status) && Live(b.attempts[c].status)) ==>
                      a == c))
            && (forall e :: e in b.executions ==> (b.executions[e].status.Running? <==> HasLive(b.attempts, e)))
            && (forall a :: a in b.attempts && b.attempts[a].status.Pending? ==>
                  b.attempts[a].execution in b.executions
                  && forall d :: d in InputsOf(b, a) ==> d in b.deliveries && b.deliveries[d].status.Ready?)
            && (forall a :: a in b.attempts && Active(b.attempts[a].status) ==>
                  b.attempts[a].execution in b.executions
                  && forall d :: d in InputsOf(b, a) ==>
                     d in b.deliveries && b.deliveries[d].status.Leased?
                     && b.deliveries[d].lease == b.attempts[a].lease)
            && (forall e, d :: e in b.executions && d in b.executions[e].inputs ==>
                  && d in b.deliveries
                  && (b.executions[e].status.Completed? ==> b.deliveries[d].status.Completed?)
                  && (b.executions[e].status.Failed? ==>
                     b.deliveries[d].status.DeadLettered? || b.deliveries[d].status.Cancelled?))
  {
    hide Authority, NumberedTo, Execute, HasLive, WinnerLast, SubmissionsValid, Published, Sequenced, Accounted,
      Sweeping, Allocated;
    RunReliable(w, steps);
    AuthorityMeans(Execute(w, steps).tables.board);
    InputsMean(Execute(w, steps).tables.board);
  }

  lemma AuthorityMeans(b: Board)
    requires Authority(b)
    ensures forall e :: e in b.executions ==> exists k :: NumberedTo(b, e, k)
    ensures forall a, c :: a in b.attempts && c in b.attempts && b.attempts[a].execution == b.attempts[c].execution ==>
              (b.attempts[a].number == b.attempts[c].number
                || (Live(b.attempts[a].status) && Live(b.attempts[c].status)) ==>
                  a == c)
    ensures forall e :: e in b.executions ==> (b.executions[e].status.Running? <==> HasLive(b.attempts, e))
  {
    hide InputsOwned, InputsSettled, UnclaimedIdle;
    forall e | e in b.executions ensures exists k :: NumberedTo(b, e, k) {
      var k := NumbersEnd(b, e);
    }
  }

  lemma InputsMean(b: Board)
    requires Authority(b)
    ensures forall a :: a in b.attempts && Live(b.attempts[a].status) ==>
              b.attempts[a].execution in b.executions
              && forall d :: d in InputsOf(b, a) ==> d in b.deliveries && Holds(b.attempts[a], b.deliveries[d])
    ensures forall e, d :: e in b.executions && d in b.executions[e].inputs ==>
              d in b.deliveries && SettledWith(b.executions[e].status, b.deliveries[d])
  {
    hide RowsValid, Numbered, RunningLives, UnclaimedIdle, Holds, SettledWith;
  }

  // ---------------------------------------------------------------- the books

  /** The stream holds the numbers 1..n in order, and n + 1 is next. */
  ghost predicate Gapless(t: Tables, stream: Stream) {
    exists n: nat :: SequencesOf(t.events, stream) == UpTo(n) && NextSequence(t.streams, stream) == n + 1
  }

  /** The ledger total of the counter is what the committed submissions report, each counted once. */
  ghost predicate Balanced(t: Tables, c: Counter) {
    Total(t.ledger, c) == Owed(t.submissions, t.nextId, c) && forall a :: a in t.submissions ==> a < t.nextId
  }

  lemma StateBalances(t: Tables, c: Counter, stream: Stream)
    requires Sequenced(t.events, t.streams) && Accounted(t) && c in COUNTERS
    ensures Balanced(t, c) && Gapless(t, stream)
  {
    assert SequencesOf(t.events, stream) == UpTo(NextSequence(t.streams, stream) - 1);
  }

  /** In every reachable state every counter balances and every stream is free of gaps. */
  lemma BooksBalance(w: World, steps: seq<Step>, c: Counter, stream: Stream)
    requires Reliable(w) && c in COUNTERS
    ensures Balanced(Execute(w, steps).tables, c) && Gapless(Execute(w, steps).tables, stream)
  {
    hide Balanced, Gapless, Sequenced, Accounted, Sound, WinnerLast, SubmissionsValid, Published, Sweeping, Execute;
    RunReliable(w, steps);
    StateBalances(Execute(w, steps).tables, c, stream);
  }

  /** A commit that is not applied, aborted ones included, leaves ledger, streams, outputs and rows as they were. */
  lemma UnappliedRests(t: Tables, r: Result, digest: Id, allowExpired: bool, verdict: Verdict)
    ensures var (s, outcome) := Commit(t, r, digest, allowExpired, verdict);
            outcome.Rejected? || outcome.Duplicate? || outcome.Aborted? ==> s == t.(submissions := s.submissions)
  {
    hide Refusal, Complete, UsageRows;
  }

  // ---------------------------------------------------------------- artifacts

  /** A result's artifacts are published once for each reference it names, its outputs first, and there are
      no others. */
  lemma {:induction false} GatheredOnce(xs: seq<Staged>, requests: seq<Staged>)
    ensures xs <= Gathered(xs, requests)
    ensures RefsDistinct(xs) ==> RefsDistinct(Gathered(xs, requests))
    ensures forall x :: x in Gathered(xs, requests) ==> x in xs || x in requests
    ensures forall x :: x in xs || x in requests ==> Names(Gathered(xs, requests), x.ref)
  {
    if |requests| > 0 {
      var init, last := requests[..|requests| - 1], requests[|requests| - 1];
      GatheredOnce(xs, init);
      var ys, zs := Gathered(xs, init), Gathered(xs, requests);
      forall x | x in xs || x in requests ensures Names(zs, x.ref) {
        if x in xs || x in init {
          var i :| 0 <= i < |ys| && ys[i].ref == x.ref;
          assert zs[i] == ys[i];
        } else if zs != ys {
          assert zs[|ys|] == x;
        }
      }
    } else {
      forall x | x in xs ensures Names(xs, x.ref) {
        var i :| 0 <= i < |xs| && xs[i] == x;
      }
    }
  }

  /** No artifact is lost or recorded differently. */
  predicate ArtifactsStay(m: map<Id, ArtifactKind>, n: map<Id, ArtifactKind>) {
    forall d :: d in m ==> d in n && n[d] == m[d]
  }

  lemma {:induction false} CollectedStays(m: map<Id, ArtifactKind>, xs: seq<Staged>)
    ensures ArtifactsStay(m, Collected(m, xs))
    ensures forall x :: x in xs ==> x.digest in Collected(m, xs)
  {
    if |xs| > 0 {
      CollectedStays(m, xs[..|xs| - 1]);
      forall x | x in xs ensures x.digest in Collected(m, xs) {
        if x != xs[|xs| - 1] { assert x in xs[..|xs| - 1]; }
      }
    }
  }

  /** What is collected came from before or from the result. */
  lemma {:induction false} CollectedFrom(m: map<Id, ArtifactKind>, xs: seq<Staged>, d: Id)
    requires d in Collected(m, xs) && d !in m
    ensures exists i :: 0 <= i < |xs| && xs[i].digest == d && Collected(m, xs)[d] == xs[i].kind
  {
    var init, last := xs[..|xs| - 1], xs[|xs| - 1];
    if d in Collected(m, init) {
      CollectedFrom(m, init, d);
    } else {
      assert xs[|xs| - 1].digest == d;
    }
  }

  /** No artifact of the list is recorded differently, and no two of one digest differ. */
  ghost predicate Agreeing(m: map<Id, ArtifactKind>, xs: seq<Staged>) {
    && (forall i :: 0 <= i < |xs| && xs[i].digest in m ==> m[xs[i].digest] == xs[i].kind)
    && (forall i, j :: 0 <= i < j < |xs| && xs[i].digest == xs[j].digest ==> xs[i].kind == xs[j].kind)
  }

  lemma {:induction false} CollectedAgrees(m: map<Id, ArtifactKind>, xs: seq<Staged>)
    requires Agreeing(m, xs)
    ensures forall i :: 0 <= i < |xs| ==>
            xs[i].digest in Collected(m, xs) && Collected(m, xs)[xs[i].digest] == xs[i].kind
  {
    hide Agreeing, Collected;
    CollectedStays(m, xs);
    forall i | 0 <= i < |xs| ensures xs[i].digest in Collected(m, xs) && Collected(m, xs)[xs[i].digest] == xs[i].kind {
      assert xs[i] in xs;
      OneAgrees(m, xs, i);
    }
  }

  lemma OneAgrees(m: map<Id, ArtifactKind>, xs: seq<Staged>, i: nat)
    requires Agreeing(m, xs) && i < |xs| && xs[i].digest in Collected(m, xs) && ArtifactsStay(m, Collected(m, xs))
    ensures Collected(m, xs)[xs[i].digest] == xs[i].kind
  {
    hide Collected;
    if xs[i].digest !in m {
      CollectedFrom(m, xs, xs[i].digest);
      var j :| 0 <= j < |xs| && xs[j].digest == xs[i].digest && Collected(m, xs)[xs[i].digest] == xs[j].kind;
    }
  }

  lemma AgreeingNext(m: map<Id, ArtifactKind>, init: seq<Staged>, last: Staged)
    requires Agreeing(m, init)
    ensures Agreeing(m, init + [last]) <==>
              && (last.digest in m ==> m[last.digest] == last.kind)
              && forall i :: 0 <= i < |init| && init[i].digest == last.digest ==> init[i].kind == last.kind
  {
    var xs := init + [last];
    if Agreeing(m, xs) {
      forall i | 0 <= i < |init| && init[i].digest == last.digest ensures init[i].kind == last.kind {
        assert xs[i].digest == xs[|init|].digest;
      }
      assert xs[|init|] == last;
    }
  }

  /** A result conflicts exactly when one of its artifacts is recorded differently already, or two of
      them share a digest and differ. */
  lemma {:induction false} ConflictedIff(m: map<Id, ArtifactKind>, xs: seq<Staged>)
    ensures Conflicted(m, xs) <==> !Agreeing(m, xs)
  {
    hide Collected;
    if |xs| > 0 {
      var init, last := xs[..|xs| - 1], xs[|xs| - 1];
      ConflictedIff(m, init);
      CollectedStays(m, init);
      if Agreeing(m, init) {
        CollectedAgrees(m, init);
        if last.digest in Collected(m, init) {
          if last.digest !in m { CollectedFrom(m, init, last.digest); }
        }
        AgreeingNext(m, init, last);
        assert xs == init + [last];
      } else {
        assert init == xs[..|xs| - 1];
      }
    }
  }

  lemma StepArtifacts(w: World, step: Step)
    ensures ArtifactsStay(w.tables.artifacts, Effect(w, step).artifacts)
  {
    if Commits(step) {
      hide Effect;
      CommitArtifacts(w, step);
    } else {
      NoCommitArtifacts(w, step);
    }
  }

  lemma NoCommitArtifacts(w: World, step: Step)
    requires !Commits(step)
    ensures ArtifactsStay(w.tables.artifacts, Effect(w, step).artifacts)
  {
    hide Handoff, CancelRun, Ingress, ReportRecovery;
    if OnBoard(step) {
      hide Effect;
      StepBeside(w, step);
    } else {
      OtherArtifacts(w, step);
    }
  }

  lemma OtherArtifacts(w: World, step: Step)
    requires !Commits(step) && !OnBoard(step)
    ensures ArtifactsStay(w.tables.artifacts, Effect(w, step).artifacts)
  {
    hide Route, CancelAll, Presents;
    if step.AcceptCommand? { IngressArtifacts(w.tables, step.region, step.correlation, step.targets); }
  }

  lemma IngressArtifacts(t: Tables, region: Id, correlation: Id, targets: seq<Id>)
    ensures Ingress(t, region, correlation, targets).artifacts == t.artifacts
  {
    hide Route;
    RouteSilent(InsertEvent(t, region, CommandAccepted, CommandStream(region), correlation, None), region, correlation,
      targets, |targets|);
  }

  lemma CommitArtifacts(w: World, step: Step)
    requires Commits(step)
    ensures ArtifactsStay(w.tables.artifacts, Effect(w, step).artifacts)
  {
    hide CommitTransaction;
    var t := w.tables;
    match step
    case CommitResult(r, digest, allowExpired, verdict) =>
      CommitElsewhere(t, r, digest, allowExpired, verdict);
      CollectedStays(t.artifacts, ArtifactsOf(r));
    case CommitStored(a, allowExpired, verdict) =>
      if a in t.submissions {
        CommitElsewhere(t, t.submissions[a].result, t.submissions[a].digest, allowExpired, verdict);
        CollectedStays(t.artifacts, ArtifactsOf(t.submissions[a].result));
      }
  }

  /** Over any run an artifact keeps the metadata it was first recorded with. */
  lemma {:induction false} RunArtifacts(w: World, steps: seq<Step>)
    ensures ArtifactsStay(w.tables.artifacts, Execute(w, steps).tables.artifacts)
  {
    hide Effect;
    if |steps| > 0 {
      RunArtifacts(w, steps[..|steps| - 1]);
      StepArtifacts(Execute(w, steps[..|steps| - 1]), steps[|steps| - 1]);
    }
  }
}
