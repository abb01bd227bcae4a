/** How fast repeated passes clear a backlog of orphans, while sessions come and go and the
    backend writes its rows. */
module Backlog {
  import opened Reconciliation

  /** One executed pass: the listing, the rows at each look and the clock read after each. */
  datatype Moment = Moment(live: seq<SessionRecord>, rows: Rows, judgedAt: Time, confirmed: Rows, confirmedAt: Time)

  function OrphanIds(live: seq<SessionRecord>, rows: Rows, now: Time, policy: Policy): seq<Id>
    decreases |live|
  {
    if live == [] then []
    else (if Orphaned(live[0], rows, now, policy) then [live[0].id] else []) + OrphanIds(live[1..], rows, now, policy)
  }

  /** The orphans a pass finds at its first look. */
  function Orphans(m: Moment, policy: Policy): seq<Id> {
    OrphanIds(m.live, m.rows, m.judgedAt, policy)
  }

  /** Those that are orphans at both looks, and the first of them, which it terminates. */
  function Condemned(m: Moment, policy: Policy): seq<Id> {
    TwiceOrphaned(m.live, m.rows, m.judgedAt, m.confirmed, m.confirmedAt, policy)
  }

  function Called(m: Moment, policy: Policy): (calls: seq<Id>)
    requires policy.maxTerminations >= 0
    ensures |calls| == Min(policy.maxTerminations, |Condemned(m, policy)|)
    ensures calls == Condemned(m, policy)[..|calls|]
  {
    var twice := Condemned(m, policy);
    twice[..Min(policy.maxTerminations, |twice|)]
  }

  // ------------------------------------------------------------------ no new orphan

  /** From one pass to the next no orphan appears, and what was terminated is gone: an orphan
      was orphaned at both looks of the pass before and was not called. Other sessions may
      start, end and change, and the backend may write any row. */
  ghost predicate NoNewOrphan(before: Moment, after: Moment, policy: Policy)
    requires policy.maxTerminations >= 0
  {
    forall id :: id in Orphans(after, policy) ==> id in Condemned(before, policy) && id !in Called(before, policy)
  }

  /** No orphan ends or is reclaimed by itself either. */
  ghost predicate NoneVanishes(before: Moment, after: Moment, policy: Policy)
    requires policy.maxTerminations >= 0
  {
    forall id :: id in Orphans(before, policy) && id !in Called(before, policy) ==> id in Orphans(after, policy)
  }

  ghost predicate Listings(history: seq<Moment>) {
    forall k :: 0 <= k < |history| ==> DistinctIds(history[k].live)
  }

  ghost predicate OnlyClears(history: seq<Moment>, policy: Policy)
    requires policy.maxTerminations >= 0
  {
    Listings(history) && forall k :: 0 < k < |history| ==> NoNewOrphan(history[k - 1], history[k], policy)
  }

  function Left(n: nat, b: nat): nat {
    if n >= b then n - b else 0
  }

  lemma {:induction false} SecondLookAgrees(live: seq<SessionRecord>, rows: Rows, now: Time, then': Time,
                                            policy: Policy)
    requires now <= then'
    ensures TwiceOrphaned(live, rows, now, rows, then', policy) == OrphanIds(live, rows, now, policy)
    decreases |live|
  {
    if live != [] {
      SecondLookAgrees(live[1..], rows, now, then', policy);
      if Orphaned(live[0], rows, now, policy) { OrphanIsStable(live[0], rows, rows, now, then', policy); }
    }
  }

  lemma {:induction false} OrphansListed(live: seq<SessionRecord>, rows: Rows, now: Time, policy: Policy)
    requires DistinctIds(live)
    ensures Distinct(OrphanIds(live, rows, now, policy))
    ensures forall id :: id in OrphanIds(live, rows, now, policy) <==>
      exists s :: s in live && s.id == id && Orphaned(s, rows, now, policy)
  {
    SecondLookAgrees(live, rows, now, now, policy);
    TwiceOrphanedIsDistinct(live, rows, now, rows, now, policy);
    forall id
      ensures id in OrphanIds(live, rows, now, policy) <==>
        exists s :: s in live && s.id == id && Orphaned(s, rows, now, policy)
    {
      assert id in OrphanIds(live, rows, now, policy) <==> TwiceOrphanedId(live, rows, now, rows, now, policy, id);
    }
  }

  lemma {:induction false} CondemnedOnce(m: Moment, policy: Policy)
    requires DistinctIds(m.live)
    ensures Distinct(Condemned(m, policy))
    ensures forall id :: id in Condemned(m, policy) ==>
      exists s :: s in m.live && s.id == id && Orphaned(s, m.rows, m.judgedAt, policy)
  {
    TwiceOrphanedIsDistinct(m.live, m.rows, m.judgedAt, m.confirmed, m.confirmedAt, policy);
    forall id | id in Condemned(m, policy)
      ensures exists s :: s in m.live && s.id == id && Orphaned(s, m.rows, m.judgedAt, policy)
    {
      assert TwiceOrphanedId(m.live, m.rows, m.judgedAt, m.confirmed, m.confirmedAt, policy, id);
    }
  }

  lemma {:induction false} CondemnedAreOrphans(m: Moment, policy: Policy)
    requires DistinctIds(m.live)
    ensures Distinct(Condemned(m, policy)) && Distinct(Orphans(m, policy))
    ensures forall id :: id in Condemned(m, policy) ==> id in Orphans(m, policy)
  {
    CondemnedOnce(m, policy);
    OrphansListed(m.live, m.rows, m.judgedAt, policy);
  }

  // ------------------------------------------------------------------ counting ids

  function IdSet(ids: seq<Id>): set<Id> {
    set id | id in ids
  }

  lemma {:induction false} SizeOfDistinct(ids: seq<Id>)
    requires Distinct(ids)
    ensures |IdSet(ids)| == |ids|
    decreases |ids|
  {
    if ids != [] {
      var n := |ids| - 1;
      SizeOfDistinct(ids[..n]);
      assert ids == ids[..n] + [ids[n]];
      assert IdSet(ids) == IdSet(ids[..n]) + {ids[n]};
    }
  }

  lemma {:induction false} Fewer(ids: seq<Id>, among: seq<Id>)
    requires Distinct(ids) && Distinct(among) && forall id :: id in ids ==> id in among
    ensures |ids| <= |among|
  {
    SizeOfDistinct(ids);
    SizeOfDistinct(among);
    SubsetIsSmaller(IdSet(ids), IdSet(among));
  }

  lemma SubsetIsSmaller(a: set<Id>, b: set<Id>)
    requires a <= b
    ensures |a| <= |b|
  {
    assert b == a + (b - a);
  }

  lemma Behind(ids: seq<Id>, n: nat)
    requires Distinct(ids) && n <= |ids|
    ensures Distinct(ids[n..]) && |ids[n..]| == |ids| - n
    ensures forall id :: id in ids[n..] <==> id in ids && id !in ids[..n]
  {
    assert ids == ids[..n] + ids[n..];
  }

  // ------------------------------------------------------------------ the bound

  /** A pass leaves at most what its budget could not reach. */
  lemma {:induction false} PassShrinks(before: Moment, after: Moment, policy: Policy)
    requires policy.maxTerminations >= 0 && DistinctIds(before.live) && DistinctIds(after.live)
    requires NoNewOrphan(before, after, policy)
    ensures |Orphans(after, policy)| <= Left(|Orphans(before, policy)|, policy.maxTerminations)
  {
    CondemnedAreOrphans(before, policy);
    CondemnedAreOrphans(after, policy);
    Fewer(Condemned(before, policy), Orphans(before, policy));
    var n := |Called(before, policy)|;
    Behind(Condemned(before, policy), n);
    Fewer(Orphans(after, policy), Condemned(before, policy)[n..]);
  }

  /** If no new orphan appears and terminations are confirmed, at most
      `n - k * maxTerminations` of `n` orphans are left after `k` passes, and none once `k`
      reaches the ceiling of `n / maxTerminations`. */
  lemma {:induction false} BacklogClears(history: seq<Moment>, k: nat, policy: Policy)
    requires policy.maxTerminations > 0 && k < |history| && OnlyClears(history, policy)
    ensures var n := |Orphans(history[0], policy)|;
      && |Orphans(history[k], policy)| <= Left(n, Times(k, policy.maxTerminations))
      && (k >= CeilDiv(n, policy.maxTerminations) ==> Orphans(history[k], policy) == [])
  {
    var n := |Orphans(history[0], policy)|;
    if k > 0 {
      BacklogClears(history, k - 1, policy);
      PassShrinks(history[k - 1], history[k], policy);
      TimesNext(k, policy.maxTerminations);
    }
    CeilDivMeaning(n, policy.maxTerminations, k);
  }

  // ------------------------------------------------------------------ the exact count

  lemma {:induction false} PassShrinksExactly(before: Moment, after: Moment, policy: Policy)
    requires policy.maxTerminations >= 0 && DistinctIds(before.live) && DistinctIds(after.live)
    requires NoNewOrphan(before, after, policy) && NoneVanishes(before, after, policy)
    ensures |Orphans(after, policy)| == Left(|Orphans(before, policy)|, policy.maxTerminations)
  {
    PassShrinks(before, after, policy);
    CondemnedAreOrphans(before, policy);
    CondemnedAreOrphans(after, policy);
    forall id | id in Orphans(before, policy) ensures id in Condemned(before, policy) {
      if id in Called(before, policy) {
      } else {
        assert id in Orphans(after, policy);
      }
    }
    Fewer(Orphans(before, policy), Condemned(before, policy));
    var n := |Called(before, policy)|;
    Behind(Condemned(before, policy), n);
    Fewer(Condemned(before, policy)[n..], Orphans(after, policy));
  }

  /** If orphans do not vanish by themselves either, exactly that many are left. */
  lemma {:induction false} BacklogClearsExactly(history: seq<Moment>, k: nat, policy: Policy)
    requires policy.maxTerminations > 0 && k < |history| && OnlyClears(history, policy)
    requires forall j :: 0 < j < |history| ==> NoneVanishes(history[j - 1], history[j], policy)
    ensures var n := |Orphans(history[0], policy)|;
      && |Orphans(history[k], policy)| == Left(n, Times(k, policy.maxTerminations))
      && (k >= CeilDiv(n, policy.maxTerminations) <==> Orphans(history[k], policy) == [])
  {
    var n := |Orphans(history[0], policy)|;
    if k > 0 {
      BacklogClearsExactly(history, k - 1, policy);
      PassShrinksExactly(history[k - 1], history[k], policy);
      TimesNext(k, policy.maxTerminations);
    }
    CeilDivMeaning(n, policy.maxTerminations, k);
  }

  // ------------------------------------------------------------------ a quiet backend

  /** Stopping rows of ended sessions never changes the judgement of any other session. */
  lemma OthersJudgedAlike(s: SessionRecord, before: Rows, after: Rows, calls: seq<Id>, writable: bool, world: World,
                          now: Time, policy: Policy)
    requires RowsJustified(before, after, calls, writable, world) && s.id !in calls
    ensures Classify(s, after, now, policy).disposition == Classify(s, before, now, policy).disposition
    ensures Classify(s, after, now, policy).reason == Classify(s, before, now, policy).reason
  {
    if s.owner.Some? && s.owner.value in before {
      assert before[s.owner.value].provider == s.id ==> after[s.owner.value] == before[s.owner.value];
    }
  }

  /** The backend writes no row, and the rows are what `Reconcile` leaves; called sessions
      are gone, no orphan ends by itself, newcomers are no orphans and nobody grows into one. */
  ghost predicate QuietPass(before: Moment, after: Moment, policy: Policy, writable: bool, world: World)
    requires policy.maxTerminations >= 0
  {
    && before.confirmed == before.rows && before.judgedAt <= before.confirmedAt <= after.judgedAt
    && RowsJustified(before.rows, after.rows, Called(before, policy), writable, world)
    && (forall s :: s in after.live ==> s.id !in Called(before, policy))
    && (forall s :: s in after.live && Orphaned(s, after.rows, after.judgedAt, policy) ==> s in before.live)
    && (forall s ::
         s in before.live && s.id !in Called(before, policy) && Orphaned(s, before.rows, before.judgedAt, policy) ==>
           s in after.live)
    && (forall s :: s in before.live && Orphaned(s, before.rows, after.judgedAt, policy) ==>
         Orphaned(s, before.rows, before.judgedAt, policy))
  }

  /** So a quiet pass makes no new orphan and lets none vanish. */
  lemma {:induction false} QuietPassIsSteady(before: Moment, after: Moment, policy: Policy, writable: bool,
                                             world: World)
    requires policy.maxTerminations >= 0 && DistinctIds(before.live) && DistinctIds(after.live)
    requires QuietPass(before, after, policy, writable, world)
    ensures NoNewOrphan(before, after, policy) && NoneVanishes(before, after, policy)
  {
    SecondLookAgrees(before.live, before.rows, before.judgedAt, before.confirmedAt, policy);
    OrphansListed(before.live, before.rows, before.judgedAt, policy);
    OrphansListed(after.live, after.rows, after.judgedAt, policy);
    forall id | id in Orphans(after, policy) ensures id in Orphans(before, policy) && id !in Called(before, policy) {
      var s :| s in after.live && s.id == id && Orphaned(s, after.rows, after.judgedAt, policy);
      OthersJudgedAlike(s, before.rows, after.rows, Called(before, policy), writable, world, after.judgedAt, policy);
    }
    forall id | id in Orphans(before, policy) && id !in Called(before, policy) ensures id in Orphans(after, policy) {
      var s :| s in before.live && s.id == id && Orphaned(s, before.rows, before.judgedAt, policy);
      OrphanIsStable(s, before.rows, before.rows, before.judgedAt, after.judgedAt, policy);
      OthersJudgedAlike(s, before.rows, after.rows, Called(before, policy), writable, world, after.judgedAt, policy);
    }
  }

  /** Being orphaned at the first look only is not enough for the bound. A session without
      a row at one pass's first look, connected at its second and failing to be stopped
      before the next pass is an orphan of both passes, though the first spared it. */
  lemma SparedOrphanReturns(p: SessionRecord, now: Time, later: Time, policy: Policy)
    requires policy.Valid() && policy.maxTerminations > 0 && now <= later
    requires p.owner.Some? && p.createdAt.Some? && p.expiresAt.None? && p.status.Live() && !p.agentSurface
    requires policy.matchEnvironment ==> p.environment == Some(policy.environment)
    requires now - p.createdAt.value >= policy.startupGrace
    ensures var up := map[p.owner.value := Row(p.id, Connected, Some(now), Some(now), None)];
      var down := map[p.owner.value := Row(p.id, TerminationFailed, Some(now), Some(now), Some(later))];
      var first, second := Moment([p], map[], now, up, now), Moment([p], down, later, down, later);
      && Orphans(first, policy) == [p.id] == Orphans(second, policy) && Called(first, policy) == []
      && |Orphans(second, policy)| > Left(|Orphans(first, policy)|, policy.maxTerminations)
  {
    var up := map[p.owner.value := Row(p.id, Connected, Some(now), Some(now), None)];
    var down := map[p.owner.value := Row(p.id, TerminationFailed, Some(now), Some(now), Some(later))];
    OneOrphan(p, map[], now, policy);
    OneOrphan(p, down, later, policy);
    assert [p][1..] == [] && !Orphaned(p, up, now, policy);
    assert TwiceOrphaned([p], map[], now, up, now, policy) == [] + TwiceOrphaned([], map[], now, up, now, policy);
  }

  lemma OneOrphan(p: SessionRecord, rows: Rows, now: Time, policy: Policy)
    requires Orphaned(p, rows, now, policy)
    ensures OrphanIds([p], rows, now, policy) == [p.id]
  {
    assert [p][1..] == [];
    assert OrphanIds([p], rows, now, policy) == [p.id] + OrphanIds([], rows, now, policy);
  }

  // ------------------------------------------------------------------ arithmetic

  function Times(k: nat, b: nat): nat { k * b }

  lemma TimesNext(k: nat, b: nat)
    requires k > 0
    ensures Times(k, b) == Times(k - 1, b) + b
  {
  }

  /** How many times at most `b` can be taken from `n` until nothing is left. */
  function CeilDiv(n: nat, b: nat): nat
    requires b > 0
    decreases n
  {
    if n == 0 then 0 else 1 + CeilDiv(Left(n, b), b)
  }

  /** That is the ceiling of the quotient: the least `k` with `k * b >= n`. */
  lemma {:induction false} CeilDivMeaning(n: nat, b: nat, k: nat)
    requires b > 0
    ensures k >= CeilDiv(n, b) <==> Times(k, b) >= n
    decreases n
  {
    if n > 0 {
      if k > 0 {
        TimesNext(k, b);
        CeilDivMeaning(Left(n, b), b, k - 1);
      }
    }
  }
}
