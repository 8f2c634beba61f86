/** The follow-session controller: the start, stop, reset and speed handlers
    and the round-by-round follow loop, over the controller's module-scope
    state. The page is abstracted to the labels of its enabled buttons, and
    every wait of the loop to whether the Stop button was pressed during it. */
module FollowSession {
  import Labels

  /** MAX_FOLLOWS_PER_DAY: the cap tested at the top of every round. */
  const DailyCap: nat := 100
  /** Number of consecutive rounds without a follow that ends the session. */
  const EmptyRoundLimit: nat := 5
  /** Initial lower bound of the pause after a follow, in milliseconds. */
  const InitialMinDelay: int := 5000
  /** Upper bound of that pause; no handler changes it. */
  const MaxDelay: int := 15000

  datatype Option<T> = None | Some(value: T) {
    function GetOr(default: T): T {
      match this
      case Some(v) => v
      case None => default
    }
  }

  /** The controller's variables: `running`, `count`, `attempts`, `minDelay`,
      and the value stored under the key follow_count (None when absent). */
  datatype State = State(running: bool, count: nat, attempts: nat, minDelay: int, stored: Option<nat>)

  /** An enabled button of the page, with whether the Stop button is pressed
      during the waits the loop makes after acting on it (only a follow
      button makes the loop wait). */
  datatype Button = Button(text: string, stopWhileWaiting: bool)

  /** The buttons a round finds, in document order, and whether the Stop
      button is pressed during the wait after scrolling on an empty round. */
  datatype Page = Page(buttons: seq<Button>, stopWhileScrolling: bool)

  /** What the inner loop of a round did: how many buttons it followed and
      whether it left early because it saw `running` false. */
  datatype Tally = Tally(follows: nat, stopped: bool)

  predicate IsFollowButton(b: Button) {
    Labels.IsFollowLabel(b.text)
  }

  /** Number of follow buttons in `bs`. */
  function CountFollow(bs: seq<Button>): (n: nat)
    ensures n <= |bs|
  {
    if bs == [] then 0
    else CountFollow(bs[..|bs| - 1]) + (if IsFollowButton(bs[|bs| - 1]) then 1 else 0)
  }

  /** No follow button of `bs` sees the Stop button pressed during its waits. */
  predicate NoStopWhileFollowing(bs: seq<Button>) {
    forall k :: 0 <= k < |bs| && IsFollowButton(bs[k]) ==> !bs[k].stopWhileWaiting
  }

  /** The inner loop over the buttons of one round: it follows each follow
      button in order and, after each one, leaves if `running` became false.
      It can only leave after a follow, and never follows more than there are. */
  function Scan(bs: seq<Button>): (t: Tally)
    ensures t.stopped ==> t.follows > 0
    ensures t.follows <= CountFollow(bs)
  {
    if bs == [] then Tally(0, false)
    else
      var t := Scan(bs[..|bs| - 1]);
      var b := bs[|bs| - 1];
      if t.stopped || !IsFollowButton(b) then t
      else Tally(t.follows + 1, b.stopWhileWaiting)
  }

  /** The state when the script is loaded: `count` is the stored value, or 0. */
  function Loaded(stored: Option<nat>): State {
    State(false, stored.GetOr(0), 0, InitialMinDelay, stored)
  }

  /** Reloading from what is stored gives back the count in memory. */
  predicate Synced(s: State) {
    Loaded(s.stored).count == s.count
  }

  function AfterStop(s: State): State {
    s.(running := false)
  }

  function AfterReset(s: State): State {
    s.(count := 0, stored := Some(0))
  }

  /** The values the speed slider can produce: 5000 to 30000 in steps of 1000. */
  predicate SliderValue(v: int) {
    5000 <= v <= 30000 && v % 1000 == 0
  }

  function AfterSpeed(s: State, v: int): State
    requires SliderValue(v)
  {
    s.(minDelay := v)
  }

  /** One pass of the body of the `while (running)` loop. Both `break`s of
      that loop clear `running`, so leaving the loop is `running` false. */
  function AfterRound(s: State, p: Page): State
    requires s.running
  {
    if s.count >= DailyCap then s.(running := false)
    else
      var t := Scan(p.buttons);
      if t.follows > 0 then
        s.(running := !t.stopped, count := s.count + t.follows,
           stored := Some(s.count + t.follows), attempts := 0)
      else
        s.(running := !p.stopWhileScrolling && s.attempts + 1 < EmptyRoundLimit,
           attempts := s.attempts + 1)
  }

  function CapRoom(count: nat): nat {
    if count < DailyCap then DailyCap - count else 0
  }

  /** How many more empty rounds the session survives. */
  function AttemptRoom(attempts: nat): nat {
    if attempts < EmptyRoundLimit - 1 then EmptyRoundLimit - 1 - attempts else 0
  }

  /** An upper bound on the rounds the loop still runs: each follow round
      takes at least one step off the cap, and at most four empty rounds
      separate two follow rounds. */
  function Budget(s: State): nat {
    if s.running then EmptyRoundLimit * CapRoom(s.count) + AttemptRoom(s.attempts) + 1 else 0
  }

  /** Every round uses up budget, so the follow loop always ends. */
  lemma RoundProgress(s: State, p: Page)
    requires s.running
    ensures Budget(AfterRound(s, p)) < Budget(s)
  {
  }

  /** The follow loop run from `s`, round `r` seeing page `pages(r)`. */
  function Run(s: State, pages: nat -> Page, r: nat): State
    decreases Budget(s)
  {
    if !s.running then s
    else
      RoundProgress(s, pages(r));
      Run(AfterRound(s, pages(r)), pages, r + 1)
  }

  /** The Start handler: nothing when running, else it runs the loop. */
  function AfterStart(s: State, pages: nat -> Page): State {
    if s.running then s else Run(s.(running := true), pages, 0)
  }

  class Session {
    var running: bool
    var count: nat
    var attempts: nat
    var minDelay: int
    /** The value stored under follow_count. */
    var stored: Option<nat>

    function Snapshot(): State
      reads this
    {
      State(running, count, attempts, minDelay, stored)
    }

    ghost predicate Valid()
      reads this
    {
      Synced(Snapshot())
    }

    /** Loading the script, with whatever follow_count holds. */
    constructor (persisted: Option<nat>)
      ensures Snapshot() == Loaded(persisted)
      ensures Valid()
    {
      running := false;
      count := persisted.GetOr(0);
      attempts := 0;
      minDelay := InitialMinDelay;
      stored := persisted;
    }

    method Start(pages: nat -> Page)
      requires Valid()
      modifies this
      ensures Snapshot() == AfterStart(old(Snapshot()), pages)
      ensures Valid()
    {
      if !running {
        running := true;
        FollowProcess(pages);
      }
    }

    method Stop()
      requires Valid()
      modifies this
      ensures Snapshot() == AfterStop(old(Snapshot()))
      ensures Valid()
    {
      running := false;
    }

    method Reset()
      modifies this
      ensures Snapshot() == AfterReset(old(Snapshot()))
      ensures Valid()
    {
      count := 0;
      stored := Some(0);
    }

    method SetSpeed(value: int)
      requires SliderValue(value) && Valid()
      modifies this
      ensures Snapshot() == AfterSpeed(old(Snapshot()), value)
      ensures Valid()
    {
      minDelay := value;
    }

    /** The `while (running)` loop; round `r` finds the buttons of `pages(r)`. */
    method FollowProcess(pages: nat -> Page)
      requires Valid()
      modifies this
      ensures Snapshot() == Run(old(Snapshot()), pages, 0)
      ensures Valid()
    {
      var r := 0;
      while running
        invariant Valid()
        invariant Run(Snapshot(), pages, r) == Run(old(Snapshot()), pages, 0)
        decreases Budget(Snapshot())
      {
        RoundProgress(Snapshot(), pages(r));
        Round(pages(r));
        r := r + 1;
      }
    }

    /** One pass of the loop body. */
    method Round(page: Page)
      requires running && Valid()
      modifies this
      ensures Snapshot() == AfterRound(old(Snapshot()), page)
      ensures Valid()
    {
      if count >= DailyCap {
        running := false;
        return;
      }
      var followedThisRound := FollowButtons(page.buttons);
      if !followedThisRound {
        attempts := attempts + 1;
        // the wait after scrolling: the Stop handler may run here
        if page.stopWhileScrolling {
          Stop();
        }
        if attempts >= EmptyRoundLimit {
          running := false;
          return;
        }
      } else {
        attempts := 0;
      }
    }

    /** The inner `for` loop of a round over the buttons `bs`. */
    method FollowButtons(bs: seq<Button>) returns (followedThisRound: bool)
      requires running && Valid()
      modifies this
      ensures var t := Scan(bs);
              && count == old(count) + t.follows
              && running == !t.stopped
              && followedThisRound == (t.follows > 0)
              && stored == (if t.follows > 0 then Some(count) else old(stored))
              && attempts == old(attempts) && minDelay == old(minDelay)
      ensures Valid()
    {
      followedThisRound := false;
      var i := 0;
      while i < |bs|
        invariant 0 <= i <= |bs|
        invariant count == old(count) + Scan(bs[..i]).follows
        invariant running && !Scan(bs[..i]).stopped
        invariant followedThisRound == (Scan(bs[..i]).follows > 0)
        invariant stored == if followedThisRound then Some(count) else old(stored)
        invariant attempts == old(attempts) && minDelay == old(minDelay)
      {
        var b := bs[i];
        TakeOneMore(bs, i);
        ScanSnoc(bs[..i], b);
        if IsFollowButton(b) {
          count := count + 1;
          stored := Some(count);
          followedThisRound := true;
          // the waits around the click: the Stop handler may run here
          if b.stopWhileWaiting {
            Stop();
          }
        }
        i := i + 1;
        if !running {
          break;
        }
      }
      ScanUpTo(bs, i);
      if !followedThisRound {
        assert count == old(count) && stored == old(stored);
      }
    }
  }

  /** The inner loop's result is fixed once it has seen every button or has
      left early. */
  lemma ScanUpTo(bs: seq<Button>, i: int)
    requires 0 <= i <= |bs| && (i == |bs| || Scan(bs[..i]).stopped)
    ensures Scan(bs) == Scan(bs[..i])
  {
    TakeDrop(bs, i);
    if i < |bs| {
      ScanAfterStop(bs[..i], bs[i..]);
    } else {
      assert bs[..i] == bs;
    }
  }

  /** Once the inner loop has left, buttons further down are never touched. */
  lemma {:induction false} ScanAfterStop(bs: seq<Button>, rest: seq<Button>)
    requires Scan(bs).stopped
    ensures Scan(bs + rest) == Scan(bs)
    decreases |rest|
  {
    if rest != [] {
      var front := rest[..|rest| - 1];
      ScanAfterStop(bs, front);
      var all := bs + rest;
      assert all[..|all| - 1] == bs + front;
      assert Scan(all) == Scan(bs + front);
    } else {
      assert bs + rest == bs;
    }
  }

  /** One more button at the end of the page. */
  lemma ScanSnoc(bs: seq<Button>, b: Button)
    ensures var t := Scan(bs);
      Scan(bs + [b]) == if t.stopped || !IsFollowButton(b) then t else Tally(t.follows + 1, b.stopWhileWaiting)
  {
    assert (bs + [b])[..|bs|] == bs;
  }

  lemma TakeOneMore<T>(xs: seq<T>, i: int)
    requires 0 <= i < |xs|
    ensures xs[..i + 1] == xs[..i] + [xs[i]]
  {
  }

  lemma TakeDrop<T>(xs: seq<T>, i: int)
    requires 0 <= i <= |xs|
    ensures xs[..i] + xs[i..] == xs
  {
  }

  lemma SplitAt<T>(xs: seq<T>, i: int)
    requires 0 <= i < |xs|
    ensures xs[..i] + [xs[i]] + xs[i + 1..] == xs
  {
  }
}
