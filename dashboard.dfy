/** The dashboard: the active wicks, the total volume consumed, and for
    each active wick its progress through the wick life, whether it is
    exhausted, and its failure risk. */
module Dashboard {
  import opened Seqs
  import opened Types
  import App

  /** A wick is active when its flag is set or its status says active. */
  predicate IsActiveWick(h: WickingHistory)
  {
    h.isActive || h.status == Some(Active)
  }

  /** The active wicks, in history order. */
  function ActiveWicks(history: seq<WickingHistory>): (r: seq<WickingHistory>)
    ensures forall w :: w in r <==> w in history && IsActiveWick(w)
    ensures SubsequenceOf(r, history)
    ensures forall i :: 0 <= i < |history| ==>
              multiset(r)[history[i]] == if IsActiveWick(history[i]) then multiset(history)[history[i]] else 0
  {
    FilterIsSubsequence(IsActiveWick, history);
    Filter(IsActiveWick, history)
  }

  /** When no stored session carries an explicit "active" status (the
      wicking form never writes one), adding an active session leaves it
      as the only active wick on its atomizer, shown last. */
  lemma NewSessionIsTheActiveWick(history: seq<WickingHistory>, session: WickingHistory)
    requires forall i :: 0 <= i < |history| ==> history[i].status != Some(Active)
    requires session.isActive
    ensures var active := ActiveWicks(App.AddSession(history, session));
            |active| > 0 && active[|active| - 1] == session
            && forall w :: w in active && w.atomizerId == session.atomizerId ==> w == session
  {
    var d := App.DeactivateAtomizer(history, session.atomizerId);
    assert App.AddSession(history, session) == d + [session];
    ActiveAfterAppend(d, session);
    DeactivatedAreInactive(history, session.atomizerId);
  }

  /** An active session appended to a history is the last active wick. */
  lemma ActiveAfterAppend(d: seq<WickingHistory>, session: WickingHistory)
    requires session.isActive
    ensures ActiveWicks(d + [session]) == Filter(IsActiveWick, d) + [session]
  {
    FilterConcat(IsActiveWick, d, [session]);
    assert Filter(IsActiveWick, [session]) == [session];
  }

  /** After the deactivation no session on that atomizer counts as active. */
  lemma DeactivatedAreInactive(history: seq<WickingHistory>, atomizerId: string)
    requires forall i :: 0 <= i < |history| ==> history[i].status != Some(Active)
    ensures forall w :: w in App.DeactivateAtomizer(history, atomizerId) && w.atomizerId == atomizerId ==>
              !IsActiveWick(w)
  {
    var d := App.DeactivateAtomizer(history, atomizerId);
    assert forall i :: 0 <= i < |d| && d[i].atomizerId == atomizerId ==> !IsActiveWick(d[i]);
  }

  function MlOf(h: WickingHistory): real
  {
    h.mlConsumed
  }

  /** The total volume consumed over the whole history. */
  function TotalConsumed(history: seq<WickingHistory>): real
  {
    SumOf(history, MlOf)
  }

  /** The total is never negative when no entry is. */
  lemma TotalConsumedNonNegative(history: seq<WickingHistory>)
    requires forall i :: 0 <= i < |history| ==> history[i].mlConsumed >= 0.0
    ensures TotalConsumed(history) >= 0.0
  {
    SumOfNonNegative(history, MlOf);
  }

  /** Adding a session adds its volume to the total: deactivating the
      earlier sessions changes no volume. */
  lemma TotalConsumedAfterAdd(history: seq<WickingHistory>, session: WickingHistory)
    ensures TotalConsumed(App.AddSession(history, session)) == TotalConsumed(history) + session.mlConsumed
  {
    var d := App.DeactivateAtomizer(history, session.atomizerId);
    assert App.AddSession(history, session) == d + [session];
    SumOfConcat(d, [session], MlOf);
    assert SumOf([session], MlOf) == session.mlConsumed;
    SumOfSameVolumes(d, history);
  }

  /** Two histories whose entries have the same volumes, position by
      position, have the same total. */
  lemma {:induction false} SumOfSameVolumes(a: seq<WickingHistory>, b: seq<WickingHistory>)
    requires |a| == |b| && forall i :: 0 <= i < |a| ==> a[i].mlConsumed == b[i].mlConsumed
    ensures SumOf(a, MlOf) == SumOf(b, MlOf)
  {
    if a != [] {
      SumOfSameVolumes(a[1..], b[1..]);
    }
  }

  /** `maxWickLife || 8`: a zero wick life is read as 8 ml. */
  function EffectiveLife(maxWickLife: real): (life: real)
    ensures life != 0.0
    ensures maxWickLife != 0.0 ==> life == maxWickLife
  {
    if maxWickLife == 0.0 then 8.0 else maxWickLife
  }

  /** The progress bar, in percent of the wick life, capped at 100. */
  function Progress(ml: real, maxWickLife: real): (p: real)
    ensures p <= 100.0
    ensures p == 100.0 || p == ml / EffectiveLife(maxWickLife) * 100.0
    ensures ml / EffectiveLife(maxWickLife) * 100.0 < 100.0 ==> p == ml / EffectiveLife(maxWickLife) * 100.0
  {
    var raw := ml / EffectiveLife(maxWickLife) * 100.0;
    if raw < 100.0 then raw else 100.0
  }

  predicate IsExhausted(ml: real, maxWickLife: real)
  {
    Progress(ml, maxWickLife) >= 100.0
  }

  /** For a positive wick life the wick is exhausted exactly when the
      consumed volume has reached it, and progress is never negative for
      a non-negative volume. */
  lemma ExhaustedIffLifeReached(ml: real, maxWickLife: real)
    requires maxWickLife > 0.0
    ensures IsExhausted(ml, maxWickLife) <==> ml >= maxWickLife
    ensures ml >= 0.0 ==> Progress(ml, maxWickLife) >= 0.0
  {
    var q := ml / maxWickLife;
    assert q * maxWickLife == ml;
    if q >= 1.0 {
      AtLeastOne(q, maxWickLife);
    } else {
      BelowOne(q, maxWickLife);
    }
    if ml >= 0.0 {
      assert q >= 0.0;
    }
  }

  lemma AtLeastOne(q: real, m: real)
    requires q >= 1.0 && m > 0.0
    ensures q * m >= m
  {
  }

  lemma BelowOne(q: real, m: real)
    requires q < 1.0 && m > 0.0
    ensures q * m < m
  {
  }

  /** The wick alert of the ml counter fires exactly on the step that
      turns a wick from not exhausted to exhausted. */
  lemma AlertMarksExhaustion(oldMl: real, delta: real, maxWickLife: real)
    requires maxWickLife > 0.0
    ensures App.AlertFires(oldMl, App.NewMl(oldMl, delta), maxWickLife)
            <==> !IsExhausted(oldMl, maxWickLife) && IsExhausted(App.NewMl(oldMl, delta), maxWickLife)
  {
    ExhaustedIffLifeReached(oldMl, maxWickLife);
    ExhaustedIffLifeReached(App.NewMl(oldMl, delta), maxWickLife);
  }

  datatype Risk = Low | Medium | High | Critical

  /** The failure-risk badge. */
  function RiskOf(progress: real): (r: Risk)
    ensures r == Critical <==> progress > 90.0
    ensures r == High <==> 75.0 < progress <= 90.0
    ensures r == Medium <==> 50.0 < progress <= 75.0
    ensures r == Low <==> progress <= 50.0
  {
    if progress > 90.0 then Critical
    else if progress > 75.0 then High
    else if progress > 50.0 then Medium
    else Low
  }

  function Rank(r: Risk): nat
  {
    match r
    case Low => 0
    case Medium => 1
    case High => 2
    case Critical => 3
  }

  /** More progress never means a lower risk, and an exhausted wick is
      always at critical risk. */
  lemma RiskMonotone(p1: real, p2: real, ml: real, maxWickLife: real)
    requires p1 <= p2
    ensures Rank(RiskOf(p1)) <= Rank(RiskOf(p2))
    ensures IsExhausted(ml, maxWickLife) ==> RiskOf(Progress(ml, maxWickLife)) == Critical
  {
  }
}
