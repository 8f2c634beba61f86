/** What the follow-session controller promises: how a round counts follows,
    when the Stop button takes effect, the empty-round counter, the daily
    cap (and how far a round can go past it), that the stored count always
    matches the count in memory, and that the follow loop always ends. */
module FollowSessionProofs {
  import Labels
  import opened FollowSession

  function Max(a: int, b: int): int {
    if a < b then b else a
  }

  /** No Stop press during any wait of the round. */
  predicate NoStopPresses(p: Page) {
    NoStopWhileFollowing(p.buttons) && !p.stopWhileScrolling
  }

  // ---------------------------------------------------------------------------
  // The inner loop of a round

  /** The inner loop leaves early exactly when Stop is pressed while it waits
      after some follow button; when it does not, it follows every follow
      button of the page. */
  lemma {:induction false} ScanUnstopped(bs: seq<Button>)
    ensures !Scan(bs).stopped <==> NoStopWhileFollowing(bs)
    ensures NoStopWhileFollowing(bs) ==> Scan(bs).follows == CountFollow(bs)
    decreases |bs|
  {
    if bs != [] {
      var front := bs[..|bs| - 1];
      ScanUnstopped(front);
      if NoStopWhileFollowing(bs) {
        assert NoStopWhileFollowing(front);
      } else if NoStopWhileFollowing(front) {
        var k :| 0 <= k < |bs| && IsFollowButton(bs[k]) && bs[k].stopWhileWaiting;
        assert k == |bs| - 1;
      }
    }
  }

  /** When Stop is first pressed during the waits of the follow button at
      index `i`, the round follows every follow button up to and including
      that one and touches nothing after it. */
  lemma ScanFirstStop(bs: seq<Button>, i: int)
    requires 0 <= i < |bs| && IsFollowButton(bs[i]) && bs[i].stopWhileWaiting
    requires NoStopWhileFollowing(bs[..i])
    ensures Scan(bs) == Tally(CountFollow(bs[..i]) + 1, true)
  {
    var upto := bs[..i] + [bs[i]];
    ScanUnstopped(bs[..i]);
    ScanSnoc(bs[..i], bs[i]);
    assert Scan(upto) == Tally(CountFollow(bs[..i]) + 1, true);
    ScanAfterStop(upto, bs[i + 1..]);
    SplitAt(bs, i);
  }

  // ---------------------------------------------------------------------------
  // One round

  /** A round that starts at or above the cap clicks nothing and ends the
      session; nothing else changes. */
  lemma CapStopsBeforeClicking(s: State, pages: nat -> Page, r: nat)
    requires s.running && s.count >= DailyCap
    ensures Run(s, pages, r) == AfterStop(s)
  {
    assert AfterRound(s, pages(r)) == AfterStop(s);
  }

  /** A round below the cap with no Stop press follows every follow button
      of the page, however far that takes the count past the cap. A round
      with a follow clears the empty-round counter and stores the new count;
      a round without one adds one to the counter, stores nothing, and ends
      the session when the counter reaches five. */
  lemma RoundWithoutStop(s: State, p: Page)
    requires s.running && s.count < DailyCap && NoStopWhileFollowing(p.buttons)
    ensures var e := AfterRound(s, p);
      && e.count == s.count + CountFollow(p.buttons)
      && e.minDelay == s.minDelay
      && (CountFollow(p.buttons) > 0 ==>
            e.running && e.attempts == 0 && e.stored == Some(e.count))
      && (CountFollow(p.buttons) == 0 ==>
            e.attempts == s.attempts + 1 && e.stored == s.stored &&
            (e.running <==> !p.stopWhileScrolling && s.attempts + 1 < EmptyRoundLimit))
  {
    ScanUnstopped(p.buttons);
  }

  /** A round in which Stop is first pressed during the waits of the follow
      button at index `i` follows the follow buttons up to that one, stores
      the new count, clears the empty-round counter and ends the session. */
  lemma RoundStoppedAt(s: State, p: Page, i: int)
    requires s.running && s.count < DailyCap
    requires 0 <= i < |p.buttons| && IsFollowButton(p.buttons[i]) && p.buttons[i].stopWhileWaiting
    requires NoStopWhileFollowing(p.buttons[..i])
    ensures var e := AfterRound(s, p);
      && e.count == s.count + CountFollow(p.buttons[..i]) + 1
      && !e.running && e.attempts == 0 && e.stored == Some(e.count)
      && e.minDelay == s.minDelay
  {
    ScanFirstStop(p.buttons, i);
  }

  /** The cap is not tested inside a round: at 99 follows, a page with two
      follow buttons ends the round at 101. */
  lemma CapOvershoot()
    ensures var s := State(true, DailyCap - 1, 0, InitialMinDelay, Some(DailyCap - 1));
            var b := Button("Follow", false);
            AfterRound(s, Page([b, b], false)).count == DailyCap + 1
  {
    var b := Button("Follow", false);
    Labels.FollowLabelExamples();
    assert [b, b][..1] == [b] && [b][..0] == [];
    assert CountFollow([b, b]) == 2;
    ScanUnstopped([b, b]);
  }

  /** A round with no follow button that brings the empty-round counter to
      five or more ends the session. */
  lemma EmptyRoundsEndSession(s: State, p: Page)
    requires s.running && s.count < DailyCap && CountFollow(p.buttons) == 0
    requires s.attempts + 1 >= EmptyRoundLimit
    ensures !AfterRound(s, p).running && AfterRound(s, p).attempts == s.attempts + 1
  {
  }

  // ---------------------------------------------------------------------------
  // Whole sessions

  /** Number of rounds the follow loop runs from `s`. */
  ghost function Rounds(s: State, pages: nat -> Page, r: nat): nat
    decreases Budget(s)
  {
    if !s.running then 0
    else
      RoundProgress(s, pages(r));
      1 + Rounds(AfterRound(s, pages(r)), pages, r + 1)
  }

  /** The follow loop always ends, within the round budget of its start:
      five rounds for each follow left under the cap, plus the empty rounds
      the counter still allows, plus the round that finds the cap. */
  lemma {:induction false} RoundsWithinBudget(s: State, pages: nat -> Page, r: nat)
    ensures Rounds(s, pages, r) <= Budget(s)
    ensures s.running && s.count == 0 && s.attempts == 0 ==> Rounds(s, pages, r) <= 505
    decreases Budget(s)
  {
    if s.running {
      RoundProgress(s, pages(r));
      RoundsWithinBudget(AfterRound(s, pages(r)), pages, r + 1);
    }
  }

  /** When the follow loop returns, `running` is false. */
  lemma {:induction false} RunEndsStopped(s: State, pages: nat -> Page, r: nat)
    ensures !Run(s, pages, r).running
    decreases Budget(s)
  {
    if s.running {
      RoundProgress(s, pages(r));
      RunEndsStopped(AfterRound(s, pages(r)), pages, r + 1);
    }
  }

  /** Without a Stop press the session ends only at the cap or after five
      consecutive rounds without a follow. */
  lemma {:induction false} RunWithoutStopEnds(s: State, pages: nat -> Page, r: nat)
    requires s.running
    requires forall k :: r <= k ==> NoStopPresses(pages(k))
    ensures var e := Run(s, pages, r);
            e.count >= DailyCap || e.attempts >= EmptyRoundLimit
    decreases Budget(s)
  {
    var p := pages(r);
    assert NoStopPresses(p);
    var e := AfterRound(s, p);
    if s.count < DailyCap {
      RoundWithoutStop(s, p);
      if e.running {
        RoundProgress(s, p);
        RunWithoutStopEnds(e, pages, r + 1);
      }
    }
  }

  /** The count never goes down during a session, and goes past the cap by
      less than one page's worth of buttons. */
  lemma {:induction false} RunCountBounds(s: State, pages: nat -> Page, r: nat, width: nat)
    requires forall k :: r <= k ==> |pages(k).buttons| <= width
    ensures s.count <= Run(s, pages, r).count
    ensures Run(s, pages, r).count <= Max(s.count, DailyCap - 1 + width)
    decreases Budget(s)
  {
    if s.running {
      var p := pages(r);
      assert |p.buttons| <= width;
      var e := AfterRound(s, p);
      assert e.count <= Max(s.count, DailyCap - 1 + width);
      RoundProgress(s, p);
      RunCountBounds(e, pages, r + 1, width);
    }
  }

  /** Reloading the page at any time gives back the count in memory: every
      follow is stored as soon as it is counted. */
  lemma {:induction false} RunKeepsSynced(s: State, pages: nat -> Page, r: nat)
    requires Synced(s)
    ensures Synced(Run(s, pages, r))
    decreases Budget(s)
  {
    if s.running {
      RoundProgress(s, pages(r));
      RunKeepsSynced(AfterRound(s, pages(r)), pages, r + 1);
    }
  }

  // ---------------------------------------------------------------------------
  // The handlers

  /** Every handler keeps the stored count equal to the count in memory. */
  lemma HandlersKeepSynced(s: State, pages: nat -> Page, v: int)
    requires Synced(s) && SliderValue(v)
    ensures Synced(AfterStart(s, pages)) && Synced(AfterStop(s))
    ensures Synced(AfterReset(s)) && Synced(AfterSpeed(s, v))
  {
    if !s.running {
      RunKeepsSynced(s.(running := true), pages, 0);
    }
  }

  /** Start does nothing while the session runs. */
  lemma StartWhileRunning(s: State, pages: nat -> Page)
    requires s.running
    ensures AfterStart(s, pages) == s
  {
  }

  /** Neither Start nor Reset clears the empty-round counter, so a session
      that ended after five empty rounds, restarted on a page with no follow
      button, ends after a single round. */
  lemma RestartStopsAfterOneEmptyRound(s: State, pages: nat -> Page)
    requires !s.running && s.count < DailyCap && s.attempts + 1 >= EmptyRoundLimit
    requires CountFollow(pages(0).buttons) == 0
    ensures AfterStart(s, pages) == s.(attempts := s.attempts + 1)
    ensures AfterStart(AfterReset(s), pages) == AfterReset(s).(attempts := s.attempts + 1)
  {
    assert Scan(pages(0).buttons).follows == 0;
    var t := s.(running := true);
    var e := s.(attempts := s.attempts + 1);
    assert AfterRound(t, pages(0)) == e;
    assert Run(e, pages, 1) == e;
    var u := AfterReset(s).(running := true);
    var f := AfterReset(s).(attempts := s.attempts + 1);
    assert AfterRound(u, pages(0)) == f;
    assert Run(f, pages, 1) == f;
  }

  /** Stop only clears `running`: pressing it twice is pressing it once. */
  lemma StopIdempotent(s: State)
    ensures AfterStop(AfterStop(s)) == AfterStop(s)
    ensures !AfterStop(s).running
  {
  }

  /** Reset zeroes the count in memory and in storage, and leaves `running`,
      the empty-round counter and the pause bounds alone. */
  lemma ResetOnlyZeroesCount(s: State)
    ensures var e := AfterReset(s);
      && e.count == 0 && Loaded(e.stored).count == 0
      && e.running == s.running && e.attempts == s.attempts && e.minDelay == s.minDelay
  {
  }

  /** The speed slider sets the lower pause bound and nothing else, without
      clamping against the upper bound: above 15 seconds the two cross. */
  lemma SpeedUnclamped(s: State, v: int)
    requires SliderValue(v)
    ensures AfterSpeed(s, v).minDelay == v
    ensures AfterSpeed(s, v).(minDelay := s.minDelay) == s
    ensures v > MaxDelay ==> AfterSpeed(s, v).minDelay > MaxDelay
  {
  }
}
