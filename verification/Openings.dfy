// Sell plans from the instructions that open and close them: the terms a plan keeps are those its owner gave, a closed
// one is gone, and however often a user opens and closes, they are sold for no more often than they granted.
module Openings {
  import opened Machine
  import opened Ledger
  import opened Schedule
  import opened Program
  import opened Executions
  import opened Runs
  import opened CrankRuns
  import opened PlanRuns

  /** What the owner signed when they opened their plan, and the clock at which they did. */
  datatype Terms = Terms(open: I64, endTs: I64, periodSecs: I64)

  predicate Opens(e: Event, user: Key) { e.ix.OpenSellPlan? && e.ix.user == user }

  function TermsOf(e: Event): Terms
    requires e.ix.OpenSellPlan?
  {
    Terms(e.env.now, e.ix.endTs, e.ix.periodSecs)
  }

  /** The terms in force after the first i events, read off the events alone. */
  function TermsAfter(es: seq<Event>, i: nat, user: Key): Option<Terms>
    requires i <= |es|
  {
    if i == 0 then None
    else if Opens(es[i - 1], user) then Some(TermsOf(es[i - 1]))
    else if es[i - 1].ix == CloseSellPlan(user) then None
    else TermsAfter(es, i - 1, user)
  }

  /** The user has a plan exactly when terms are in force, and it keeps them; its gate is on the grid they set. */
  ghost predicate OnTerms(s: State, user: Key, terms: Option<Terms>) {
    (user in s.plans <==> terms.Some?)
    && (terms.Some? ==>
          var plan, t := s.plans[user], terms.value;
          plan.user == user && plan.endTs == t.endTs && plan.periodSecs == t.periodSecs
          && Openable(t.open, t.endTs, t.periodSecs) && OnGrid(plan, t.open))
  }

  /** Opening stores the owner's terms, due at once, and changes nothing else. */
  lemma OpenStep(s: State, e: Event, t: State)
    requires StepsTo(s, e, t) && e.ix.OpenSellPlan?
    ensures var user := e.ix.user;
            user !in s.plans && user in t.plans && t == s.(plans := s.plans[user := t.plans[user]])
            && t.plans[user] == SellPlan(user, e.ix.endTs, e.ix.periodSecs, e.env.now)
            && Opened(t.plans[user], e.env.now)
  {
    OpenOutcome(e.ix.user, e.env.now, e.ix.endTs, e.ix.periodSecs);
  }

  lemma TermsStep(s: State, e: Event, t: State, user: Key, terms: Option<Terms>)
    requires StepsTo(s, e, t) && OnTerms(s, user, terms)
    ensures OnTerms(t, user, if Opens(e, user) then Some(TermsOf(e))
                             else if e.ix == CloseSellPlan(user) then None else terms)
  {
    if Opens(e, user) {
      OpenStep(s, e, t);
      OpenedOnGrid(t.plans[user], e.env.now);
    } else if e.ix == CloseSellPlan(user) {
    } else if user in s.plans {
      PlanStep(s, e, t, user);
      if SellFor(e, user) { ServedGate(s.plans[user], e.env.now, t.plans[user], terms.value.open); }
    } else {
      StillNone(s, e, t, user);
    }
  }

  lemma StillNone(s: State, e: Event, t: State, user: Key)
    requires StepsTo(s, e, t) && user !in s.plans && !Opens(e, user)
    ensures user !in t.plans
  {
    if e.ix.ExecuteSell? { SellAdvancesGate(s, e.env, e.ix.sell); }
    if e.ix.ExecuteBuy? { BuyMoves(s, e.env, e.ix.buy); }
  }

  /** In every state a deployment can reach, a user has a plan exactly when the last opening or closing they signed was
      an opening, and its end, period and grid are those of that opening. */
  lemma {:induction false} TermsOverRuns(ss: seq<State>, es: seq<Event>, l: Balances, i: nat, user: Key)
    requires Trace(ss, es) && ss[0] == Genesis(l) && i <= |es|
    ensures OnTerms(ss[i], user, TermsAfter(es, i, user))
  {
    if i == 0 {
    } else {
      TermsOverRuns(ss, es, l, i - 1, user);
      assert StepAt(ss, es, i - 1);
      TermsStep(ss[i - 1], es[i - 1], ss[i], user, TermsAfter(es, i - 1, user));
    }
  }

  // ---- From an opening on ----

  /** A committed opening that is not followed by a closing begins a life of the plan, on the instruction's own
      terms; so everything said of lives is said of openings. */
  lemma OpeningBeginsLife(ss: seq<State>, es: seq<Event>, j: nat, user: Key)
    requires Trace(ss, es) && j < |es| && Opens(es[j], user)
    requires forall k | j < k < |es| :: es[k].ix != CloseSellPlan(user)
    ensures Life(ss[j + 1..], es[j + 1..], user, es[j].env.now)
    ensures PlanOf(ss[j + 1], user) == SellPlan(user, es[j].ix.endTs, es[j].ix.periodSecs, es[j].env.now)
    ensures 0 < es[j].ix.periodSecs
            && Periods(PlanOf(ss[j + 1], user), es[j].env.now) == (es[j].ix.endTs - es[j].env.now) / es[j].ix.periodSecs
  {
    assert StepAt(ss, es, j);
    OpenStep(ss[j], es[j], ss[j + 1]);
    var ts, fs := ss[j + 1..], es[j + 1..];
    forall i: nat | i < |fs| ensures StepAt(ts, fs, i) && fs[i].ix != CloseSellPlan(user) {
      assert StepAt(ss, es, j + 1 + i);
    }
  }

  /** Once closed, and until the user opens another, there is no plan, and every sell for them is refused for that. */
  lemma {:induction false} ClosedIsGone(
      ss: seq<State>, es: seq<Event>, j: nat, k: nat, user: Key, env: Env, a: SellArgs)
    requires Trace(ss, es) && j < k <= |es| && es[j].ix == CloseSellPlan(user) && a.user == user
    requires forall m | j < m < k :: !Opens(es[m], user)
    ensures user !in ss[k].plans
    ensures SellEffect(ss[k], env, a) == Err(if a.keeper in env.signers then NotInitialized else MissingSigner)
    ensures k < |es| ==> !SellFor(es[k], user)
    decreases k
  {
    assert StepAt(ss, es, k - 1);
    if k == j + 1 {
    } else {
      ClosedIsGone(ss, es, j, k - 1, user, env, a);
      StillNone(ss[k - 1], es[k - 1], ss[k], user);
    }
    if k < |es| && SellFor(es[k], user) {
      assert StepAt(ss, es, k);
      SellAdvancesGate(ss[k], es[k].env, es[k].ix.sell);
    }
  }

  /** The sells that terms allow for: one for each whole period, and one more. */
  function Allowance(t: Terms): nat {
    if 0 < t.periodSecs && t.open <= t.endTs then AtLeastOne(t); (t.endTs - t.open) / t.periodSecs + 1 else 0
  }

  lemma AtLeastOne(t: Terms)
    requires 0 < t.periodSecs && t.open <= t.endTs
    ensures 0 <= (t.endTs - t.open) / t.periodSecs
  {
  }

  /** So an opening on N whole periods, counted from the instruction's own end and period and the clock it found,
      allows at most N + 1 sells. */
  lemma {:induction false} SellsOfOpening(ss: seq<State>, es: seq<Event>, j: nat, user: Key)
    requires Trace(ss, es) && j < |es| && Opens(es[j], user)
    requires forall k | j < k < |es| :: es[k].ix != CloseSellPlan(user)
    ensures Cranks(Clocks(es[j + 1..], user), |es| - j - 1) <= Allowance(TermsOf(es[j]))
  {
    OpeningBeginsLife(ss, es, j, user);
    CrankCount(ss[j + 1..], es[j + 1..], user, es[j].env.now);
    assert StepAt(ss, es, j);
    OpenStep(ss[j], es[j], ss[j + 1]);
  }

  // ---- All openings together ----

  /** What the user allowed for in all their openings among the first i events. */
  function Granted(es: seq<Event>, i: nat, user: Key): nat
    requires i <= |es|
  {
    if i == 0 then 0 else
      Granted(es, i - 1, user) + if Opens(es[i - 1], user) then Allowance(TermsOf(es[i - 1])) else 0
  }

  /** The sells the plan in force, if any, still has. */
  function StillLeft(s: State, user: Key): nat {
    if user in s.plans && 0 < s.plans[user].periodSecs then Max(CranksLeft(s.plans[user]), 0) else 0
  }

  lemma GrantStep(s: State, e: Event, t: State, user: Key, terms: Option<Terms>)
    requires StepsTo(s, e, t) && OnTerms(s, user, terms)
    ensures StillLeft(t, user) + (if SellFor(e, user) then 1 else 0)
            <= StillLeft(s, user) + if Opens(e, user) then Allowance(TermsOf(e)) else 0
  {
    if Opens(e, user) {
      OpenStep(s, e, t);
    } else if e.ix == CloseSellPlan(user) {
    } else if user in s.plans {
      PlanStep(s, e, t, user);
      if SellFor(e, user) { CranksLeftDecreases(s.plans[user], e.env.now, t.plans[user], terms.value.open); }
    } else {
      StillNone(s, e, t, user);
      if SellFor(e, user) { SellAdvancesGate(s, e.env, e.ix.sell); }
    }
  }

  /** Over any run of a deployment, through any number of plans opened and closed, the sells for a user, with those
      their plan still has, are at most what their openings allowed for. */
  lemma {:induction false} SellsGranted(ss: seq<State>, es: seq<Event>, l: Balances, i: nat, user: Key)
    requires Trace(ss, es) && ss[0] == Genesis(l) && i <= |es|
    ensures Cranks(Clocks(es, user), i) + StillLeft(ss[i], user) <= Granted(es, i, user)
  {
    if i == 0 {
    } else {
      SellsGranted(ss, es, l, i - 1, user);
      TermsOverRuns(ss, es, l, i - 1, user);
      assert StepAt(ss, es, i - 1);
      GrantStep(ss[i - 1], es[i - 1], ss[i], user, TermsAfter(es, i - 1, user));
      assert Clocks(es, user)[i - 1] == ClockOf(es[i - 1], user);
    }
  }
}
