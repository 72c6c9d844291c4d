/** How long an expired preview can stay, whatever else happens between the sweeps. */
module Pruning {
  import opened Domain
  import opened Executor
  import opened Preview
  import opened Protocol
  import opened ProtocolInvariant
  import opened ApplyGuarantees

  /** The stored previews a sweep can take before `x`, and `x` itself. */
  ghost function NotAfter(s: State, x: Id): set<Id>
    requires x in s.previews
  {
    set y | y in s.live && y in s.previews && (y == x || Older(s, y, x))
  }

  /** Action `a` is a sweep of at least `limit` previews by the clock of `now` or later. */
  ghost predicate Sweeping(s: State, a: Action, now: Instant, limit: nat) {
    && a.Prune? && now <= a.now <= s.clock && limit <= a.limit && Sweep(s, a.now, a.limit, a.victims)
  }

  ghost function SweepCount(trace: seq<State>, actions: seq<Action>, n: nat, now: Instant, limit: nat): nat
    requires |trace| == |actions| + 1 && n <= |actions|
  {
    if n == 0 then 0
    else SweepCount(trace, actions, n - 1, now, limit) + if Sweeping(trace[n - 1], actions[n - 1], now, limit) then 1 else 0
  }

  // ----- what a step can do to an expired preview -----

  /** Who holds a lock after a step held it before, or got it on a preview that has not expired. */
  ghost predicate LockedBefore(s: State, p: Id, r: Request) {
    && p in s.requests && s.requests[p].preview == r.preview
    && (s.requests[p].pc == Claiming || (r.preview in s.previews && s.clock < s.previews[r.preview].expiresAt))
  }

  lemma ClaimStepLocks(s: State, a: Action, p: Id)
    requires At(Step(s, a), p, Claiming)
    requires a.Spawn? || a.DoFind? || a.DoLock? || a.DoClaim? || a.DoFetch? || a.Crash?
    ensures LockedBefore(s, p, Step(s, a).requests[p])
  {
    hide Find, Claim, Canonical, SameRequest, HasKey;
    if Step(s, a) != s {
      if a.DoFind? {
        FindShape(s, a.p);
      } else if a.DoClaim? {
        ClaimShape(s, a.p, a.newOp);
      }
    }
  }

  /** What an item step leaves alone. */
  ghost predicate ItemFrame(s: State, p: Id, s': State) {
    && p in s.requests && p in s'.requests && s'.requests[p].pc != Claiming
    && s' == s.(db := s'.db, audit := s'.audit, results := s'.results, requests := s.requests[p := s'.requests[p]])
  }

  lemma RunFrame(s: State, p: Id, seen: map<Id, Category>)
    requires p in s.requests && HasNext(s.requests[p])
    ensures ItemFrame(s, p, RunItem(s, p, seen))
  {
    hide Process, Vacant, Canonical;
  }

  lemma FailFrame(s: State, p: Id)
    requires p in s.requests && HasNext(s.requests[p])
    ensures ItemFrame(s, p, FailItem(s, p))
  {
    hide LoadItems, Vacant, Canonical;
  }

  lemma ItemFrames(s: State, a: Action)
    requires a.DoItem? || a.DoFail? || a.DoReplay?
    ensures Step(s, a) == s || ItemFrame(s, a.p, Step(s, a))
  {
    hide RunItem, FailItem, LoadItems, Canonical;
    if Step(s, a) != s {
      if a.DoItem? {
        RunFrame(s, a.p, a.seen);
      } else if a.DoFail? {
        FailFrame(s, a.p);
      }
    }
  }

  lemma LoopStepLocks(s: State, a: Action, p: Id)
    requires At(Step(s, a), p, Claiming)
    requires a.DoRead? || a.DoLoad? || a.DoItem? || a.DoFail? || a.DoReplay? || a.DoComplete?
    ensures LockedBefore(s, p, Step(s, a).requests[p])
  {
    hide RunItem, FailItem, Replay, LoadItems, Canonical;
    if a.DoItem? || a.DoFail? || a.DoReplay? {
      ItemFrames(s, a);
    }
  }

  lemma ClaimingBefore(s: State, a: Action, p: Id)
    requires At(Step(s, a), p, Claiming)
    ensures LockedBefore(s, p, Step(s, a).requests[p])
  {
    hide Step;
    if a.Spawn? || a.DoFind? || a.DoLock? || a.DoClaim? || a.DoFetch? || a.Crash? {
      ClaimStepLocks(s, a, p);
    } else if a.DoRead? || a.DoLoad? || a.DoItem? || a.DoFail? || a.DoReplay? || a.DoComplete? {
      LoopStepLocks(s, a, p);
    } else {
      MovesNoRequest(s, a);
    }
  }

  /** An expired preview cannot be locked any more. */
  lemma NoNewLock(s: State, a: Action, x: Id)
    requires !Locked(s, x) && x in s.previews && s.previews[x].expiresAt <= s.clock
    ensures !Locked(Step(s, a), x)
  {
    hide Step;
    if Locked(Step(s, a), x) {
      var p :| p in Step(s, a).requests && Step(s, a).requests[p].pc == Claiming && Step(s, a).requests[p].preview == x;
      ClaimingBefore(s, a, p);
    }
  }

  /** Operations on a preview are only added under its lock. */
  lemma OperationsBefore(s: State, a: Action, o: Id)
    requires o in Step(s, a).ops
    ensures var s' := Step(s, a);
      || (o in s.ops && s'.ops[o].preview == s.ops[o].preview && (s.ops[o].completed ==> s'.ops[o].completed))
      || Locked(s, s'.ops[o].preview)
  {
    hide RuleStep, BuildPreview, Sweep, RunItem, FailItem, Replay, Find, Claim, LoadItems, Canonical;
    if a.DoItem? || a.DoFail? || a.DoReplay? {
      ItemFrames(s, a);
    } else if a.DoFind? && Step(s, a) != s {
      FindShape(s, a.p);
    } else if a.DoClaim? && Step(s, a) != s {
      ClaimShape(s, a.p, a.newOp);
    }
  }

  lemma NoNewOperation(s: State, a: Action, x: Id)
    requires !Locked(s, x) && !InProgress(s, x)
    ensures !InProgress(Step(s, a), x)
  {
    hide Step, Locked;
    if InProgress(Step(s, a), x) {
      var o :| o in Step(s, a).ops && Step(s, a).ops[o].preview == x && !Step(s, a).ops[o].completed;
      OperationsBefore(s, a, o);
    }
  }

  lemma LiveBefore(s: State, a: Action)
    ensures forall y :: y in Step(s, a).live && y !in s.live ==>
      y !in s.previews && y in Step(s, a).previews && Step(s, a).previews[y].expiresAt == s.clock + PREVIEW_TTL
  {
    hide RuleStep, Sweep, RunItem, FailItem, Replay, MakeItem, Load, ReadResults, Find, Claim;
    if a.DoItem? || a.DoFail? || a.DoReplay? {
      ItemFrames(s, a);
    } else if a.DoRead? || a.DoLoad? {
      ReadsOnly(s, a);
    } else if a.DoFind? && Step(s, a) != s {
      FindShape(s, a.p);
    } else if a.DoClaim? && Step(s, a) != s {
      ClaimShape(s, a.p, a.newOp);
    }
  }

  lemma ReadsOnly(s: State, a: Action)
    requires a.DoRead? || a.DoLoad?
    ensures Step(s, a).live == s.live
  {
    hide LoadItems;
  }

  lemma StoredGrow(s: State, a: Action)
    requires Inv(s)
    ensures PreviewsGrow(s.previews, Step(s, a).previews) && s.clock <= Step(s, a).clock && s.window == Step(s, a).window
    ensures s.live <= s.previews.Keys
  {
    hide Inv, Step;
    StepKeeps(s, a);
    InvTables(s);
  }

  /** What is due stays due until it is swept, and nothing enters the queue before it. */
  lemma DueStays(s: State, a: Action, x: Id, now: Instant)
    requires Inv(s) && x in Backlog(s, now) && now <= s.clock
    ensures var s' := Step(s, a);
      && (x !in s'.live || x in Backlog(s', now)) && now <= s'.clock
      && x in s'.previews && NotAfter(s', x) <= NotAfter(s, x)
  {
    hide Inv, Step, Locked, InProgress;
    LiveBefore(s, a);
    StoredGrow(s, a);
    NoNewLock(s, a, x);
    if !InProgress(s, x) {
      NoNewOperation(s, a, x);
    }
  }

  lemma GoneStays(s: State, a: Action, x: Id)
    requires Inv(s) && x in s.previews && x !in s.live
    ensures x in Step(s, a).previews && x !in Step(s, a).live
  {
    hide Inv, Step;
    LiveBefore(s, a);
    StoredGrow(s, a);
  }

  /** A sweep that does not take a due preview takes its whole limit of previews before it. */
  lemma SweepAdvances(s: State, a: Action, x: Id, now: Instant, limit: nat)
    requires Inv(s) && x in Backlog(s, now) && Sweeping(s, a, now, limit) && x in Step(s, a).live
    ensures x in Step(s, a).previews && |NotAfter(Step(s, a), x)| + limit <= |NotAfter(s, x)|
  {
    hide Inv, Locked, InProgress;
    var s' := Step(s, a);
    StoredGrow(s, a);
    assert s'.live == s.live - a.victims && s'.previews == s.previews;
    assert Prunable(s, a.now, x) && x !in a.victims;
    forall y | y in a.victims ensures y in NotAfter(s, x) {
      assert Prunable(s, a.now, y) && Older(s, y, x);
    }
    assert NotAfter(s', x) == NotAfter(s, x) - a.victims;
    assert |NotAfter(s, x) - a.victims| == |NotAfter(s, x)| - |a.victims|;
  }

  // ----- over runs -----

  lemma {:induction false} QueueShrinks(trace: seq<State>, actions: seq<Action>, n: nat, x: Id, now: Instant, limit: nat)
    requires IsRun(trace, actions) && Inv(trace[0]) && n <= |actions|
    requires x in Backlog(trace[0], now) && now <= trace[0].clock && x in trace[0].previews
    ensures Inv(trace[n]) && x in trace[n].previews && now <= trace[n].clock
    ensures x in trace[n].live ==> x in Backlog(trace[n], now)
    ensures x in trace[n].live ==>
      |NotAfter(trace[n], x)| + limit * SweepCount(trace, actions, n, now, limit) <= |NotAfter(trace[0], x)|
  {
    hide Inv, Step, Grows, Backlog, NotAfter, Sweeping;
    if n > 0 {
      QueueShrinks(trace, actions, n - 1, x, now, limit);
      var s, a := trace[n - 1], actions[n - 1];
      StepKeeps(s, a);
      LiveBefore(s, a);
    StoredGrow(s, a);
      if x !in s.live {
        GoneStays(s, a, x);
      } else {
        DueStays(s, a, x, now);
        if x in trace[n].live {
          if Sweeping(s, a, now, limit) {
            SweepAdvances(s, a, x, now, limit);
            OneMore(limit, SweepCount(trace, actions, n - 1, now, limit));
          } else {
            Smaller(NotAfter(trace[n], x), NotAfter(s, x));
          }
        }
      }
    }
  }

  lemma OneMore(limit: nat, count: nat)
    ensures limit * (count + 1) == limit * count + limit
  {
  }

  lemma {:induction false} Smaller(a: set<Id>, b: set<Id>)
    requires a <= b
    ensures |a| <= |b|
    decreases |a|
  {
    if a != {} {
      var x :| x in a;
      Smaller(a - {x}, b - {x});
    }
  }

  /** However the clock moves and whatever claims, retries, crashes and other sweeps come in between: a
      preview that is due with m stored previews up to it in the order of expiry is gone after
      ceil(m / limit) sweeps. */
  lemma DuePreviewIsSwept(trace: seq<State>, actions: seq<Action>, x: Id, now: Instant, limit: nat)
    requires IsRun(trace, actions) && Reachable(trace[0]) && now <= trace[0].clock
    requires x in Backlog(trace[0], now) && x in trace[0].previews
    requires |NotAfter(trace[0], x)| <= limit * SweepCount(trace, actions, |actions|, now, limit)
    ensures x !in trace[|actions|].live
  {
    hide Inv, Step, Reachable;
    ReachableKeeps(trace[0]);
    QueueShrinks(trace, actions, |actions|, x, now, limit);
    CountsItself(trace[|actions|], x);
  }

  lemma CountsItself(s: State, x: Id)
    requires x in s.previews
    ensures x in s.live ==> |NotAfter(s, x)| > 0
  {
    assert x in s.live ==> x in NotAfter(s, x);
  }

  /** The whole backlog of an instant is gone after ceil(n / limit) sweeps, n being all stored previews
      that have expired by then, locked and pinned ones included. */
  lemma BacklogIsSwept(trace: seq<State>, actions: seq<Action>, now: Instant, limit: nat)
    requires IsRun(trace, actions) && Reachable(trace[0]) && now <= trace[0].clock
    requires |Expired(trace[0], now)| <= limit * SweepCount(trace, actions, |actions|, now, limit)
    ensures Backlog(trace[0], now) !! trace[|actions|].live
  {
    hide Inv, Step, Reachable, Locked, InProgress;
    forall x | x in Backlog(trace[0], now) ensures x !in trace[|actions|].live {
      NotAfterExpired(trace[0], x, now);
      Smaller(NotAfter(trace[0], x), Expired(trace[0], now));
      DuePreviewIsSwept(trace, actions, x, now, limit);
    }
  }

  lemma NotAfterExpired(s: State, x: Id, now: Instant)
    requires x in s.previews && x in Backlog(s, now)
    ensures NotAfter(s, x) <= Expired(s, now)
  {
    hide Locked, InProgress;
  }

  ghost function Expired(s: State, now: Instant): set<Id> {
    set y | y in s.live && y in s.previews && s.previews[y].expiresAt <= now
  }
}
