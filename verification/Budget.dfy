/** The budget of replacement nodes that all upgrades of the cluster share. */
module Budget {

  /** What asking the budget returns and leaves behind. */
  datatype Answer = Answer(ballooning: bool, size: int, count: int, allow: bool)

  function Ask(limit: int, count: int, allow: bool, batchSize: int): Answer {
    var free := limit - count;
    if limit == 0 then Answer(false, batchSize, count, allow)
    else if count + batchSize <= limit then Answer(false, batchSize, count + batchSize, true)
    else if free < batchSize && free > 0 then Answer(false, free, count + free, true)
    else if !allow then Answer(true, 0, count, allow)
    else Answer(false, batchSize, count, allow)
  }

  function Release(count: int): int {
    if count > 0 then count - 1 else count
  }

  /** The counter in the shared map; an absent entry counts as zero. */
  class Ledger {
    const limit: int
    var count: int

    constructor (limit: int)
      ensures this.limit == limit && count == 0
    {
      this.limit := limit;
      count := 0;
    }
  }

  /** The part of the per-reconcile context that asks and releases. */
  class Context {
    const ledger: Ledger
    var allowReplacements: bool

    constructor (ledger: Ledger)
      ensures this.ledger == ledger && !allowReplacements
    {
      this.ledger := ledger;
      allowReplacements := false;
    }

    method ClusterBallooning(batchSize: int) returns (ballooning: bool, size: int)
      modifies this, ledger
      ensures Answer(ballooning, size, ledger.count, allowReplacements) ==
              Ask(ledger.limit, old(ledger.count), old(allowReplacements), batchSize)
    {
      size := batchSize;
      var newCount := ledger.count + batchSize;
      var partial := ledger.limit - ledger.count;
      if ledger.limit == 0 {
        return false, size;
      }
      if newCount <= ledger.limit {
        ledger.count := newCount;
        allowReplacements := true;
      } else if partial < batchSize && partial > 0 {
        ledger.count := ledger.count + partial;
        allowReplacements := true;
        size := partial;
      } else if !allowReplacements {
        return true, 0;
      }
      return false, size;
    }

    method Terminated()
      modifies this, ledger
      ensures ledger.count == Release(old(ledger.count))
      ensures allowReplacements == (old(allowReplacements) && old(ledger.count) <= 0)
    {
      if ledger.count > 0 {
        ledger.count := ledger.count - 1;
        allowReplacements := false;
      }
    }
  }

  /**
   * A context that has not been granted anything yet gets exactly what is free, up to what it asks
   * for, and is sent away only when nothing is free; without a limit it gets all it asks for.
   */
  lemma FreshAsk(limit: nat, count: nat, batchSize: nat)
    requires batchSize >= 1 && (limit > 0 ==> count <= limit)
    ensures var a := Ask(limit, count, false, batchSize);
      if limit == 0 then !a.ballooning && a.size == batchSize && a.count == count
      else
        && a.size == (if batchSize <= limit - count then batchSize else limit - count)
        && (a.ballooning <==> count == limit)
        && a.count == count + a.size
  {
  }

  /** Within a limit, an answer fits what is free exactly when the flag was down or something was free. */
  lemma AnswerFitsIff(limit: nat, count: nat, allow: bool, batchSize: nat)
    requires limit > 0 && count <= limit && batchSize >= 1
    ensures Ask(limit, count, allow, batchSize).size <= limit - count <==> !allow || count < limit
  {
  }

  // ----- every interleaving of upgrades -----

  datatype Ctx = Ctx(allow: bool, asked: bool)

  /** `granted` and `terminated` count since the controller started. */
  datatype State = State(count: int, contexts: map<string, Ctx>, granted: int, terminated: int)

  datatype Event =
    | Enter(upgrade: string)              // a reconcile starts with a rebuilt context
    | Grant(upgrade: string, n: nat)      // an eager reconcile asks for its InService members
    | Terminate(upgrade: string)          // any reconcile terminated an instance

  /** A reconcile asks at most once (controllers/upgrade.go:200-228 returns right after). */
  ghost predicate Possible(s: State, e: Event) {
    match e
    case Enter(_) => true
    case Grant(u, n) => u in s.contexts && !s.contexts[u].asked && n >= 1
    case Terminate(u) => u in s.contexts
  }

  function After(limit: nat, s: State, e: Event): State
    requires e.Enter? || e.upgrade in s.contexts
  {
    match e
    case Enter(u) => s.(contexts := s.contexts[u := Ctx(false, false)])
    case Grant(u, n) =>
      var a := Ask(limit, s.count, s.contexts[u].allow, n);
      s.(count := a.count, contexts := s.contexts[u := Ctx(a.allow, true)], granted := s.granted + a.size)
    case Terminate(u) =>
      s.(count := Release(s.count),
         contexts := s.contexts[u := s.contexts[u].(allow := s.contexts[u].allow && s.count <= 0)],
         terminated := s.terminated + 1)
  }

  ghost predicate IsRun(limit: nat, trace: seq<State>, events: seq<Event>) {
    && |trace| == |events| + 1
    && trace[0] == State(0, map[], 0, 0)
    && forall i :: 0 <= i < |events| ==>
         Possible(trace[i], events[i]) && trace[i + 1] == After(limit, trace[i], events[i])
  }

  ghost predicate Balanced(limit: nat, s: State) {
    && 0 <= s.count <= limit
    && s.granted - s.terminated <= s.count
    && forall u :: u in s.contexts && !s.contexts[u].asked ==> !s.contexts[u].allow
  }

  lemma BalancedStep(limit: nat, s: State, e: Event)
    requires limit > 0 && Balanced(limit, s) && Possible(s, e)
    ensures Balanced(limit, After(limit, s, e))
  {
  }

  /**
   * With a positive limit, in every run of any number of upgrades: the counter stays within the
   * limit, and so do the replacements granted beyond the terminations made.
   */
  lemma {:induction false} SurgeBounded(limit: nat, trace: seq<State>, events: seq<Event>, n: nat)
    requires limit > 0 && IsRun(limit, trace, events) && n < |trace|
    ensures Balanced(limit, trace[n])
    ensures trace[n].granted - trace[n].terminated <= limit
  {
    if n > 0 {
      SurgeBounded(limit, trace, events, n - 1);
      BalancedStep(limit, trace[n - 1], events[n - 1]);
    }
  }

  // ----- what was taken comes back -----

  /** The state after the upgrade has made so many terminations. */
  function Terminations(limit: nat, s: State, u: string, k: nat): State
    requires u in s.contexts
    ensures u in Terminations(limit, s, u, k).contexts
  {
    if k == 0 then s else After(limit, Terminations(limit, s, u, k - 1), Terminate(u))
  }

  lemma {:induction false} TerminationsCount(limit: nat, s: State, u: string, k: nat)
    requires u in s.contexts && 0 <= s.count
    ensures Terminations(limit, s, u, k).count == if k <= s.count then s.count - k else 0
  {
    if k > 0 {
      TerminationsCount(limit, s, u, k - 1);
    }
  }

  /**
   * Every termination frees one replacement: in every run, after k of them a rebuilt context is granted
   * what was free before and k more, up to what it asks for and what there is.
   */
  lemma FreeAgain(limit: nat, trace: seq<State>, events: seq<Event>, n: nat, u: string, k: nat, request: nat)
    requires limit > 0 && IsRun(limit, trace, events) && n < |trace| && u in trace[n].contexts && request >= 1
    ensures var s := trace[n];
      var free := if k <= s.count then limit - s.count + k else limit;
      Ask(limit, Terminations(limit, s, u, k).count, false, request).size == if request <= free then request else free
  {
    SurgeBounded(limit, trace, events, n);
    TerminationsCount(limit, trace[n], u, k);
  }

  /** A context kept across two questions would overrun: the second is granted in full and not counted. */
  lemma KeptContextOverruns(limit: nat, n: nat)
    requires limit > 0 && n >= 1
    ensures var first := Ask(limit, 0, false, limit);
      var second := Ask(limit, first.count, first.allow, n);
      !second.ballooning && second.count == limit && first.size + second.size == limit + n
  {
  }
}
