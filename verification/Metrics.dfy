/** Per-node step accounting. */
module Metrics {
  import opened Statistics

  datatype Step =
    | Kickoff | DesiredNodeReady | PredrainScript | Drain | PostdrainScript | PostWait
    | Terminate | PostTerminate | Terminated | Completed
    | Total

  /** NodeRotationStepOrders; a step missing from the table reads as 0. */
  function Order(s: Step): int {
    match s
    case Kickoff => 10
    case DesiredNodeReady => 20
    case PredrainScript => 30
    case Drain => 40
    case PostdrainScript => 50
    case PostWait => 60
    case Terminate => 70
    case PostTerminate => 80
    case Terminated => 90
    case Completed => 1000
    case Total => 0
  }

  datatype InProcessing = InProcessing(step: Step, upgradeStart: int, stepStart: int, stepEnd: int)

  type StepDuration = Duration<Step>

  type StepLog = Log<Step>

  datatype Books = Books(open: map<string, InProcessing>, log: StepLog)

  /** One whole call; `first` and `second` are the two clock reads made when the entry is created. */
  datatype Call = Call(node: string, step: Step, end: int, first: int, second: int)

  function Entries(log: StepLog, node: string): seq<StepDuration> {
    if node in log then log[node] else []
  }

  function Append(log: StepLog, node: string, d: StepDuration): StepLog {
    log[node := Entries(log, node) + [d]]
  }

  function DoStep(b: Books, c: Call): Books {
    var found := if c.node in b.open then b.open[c.node] else InProcessing(c.step, c.first, c.second, 0);
    var e := found.(stepEnd := c.end);
    var elapsed := c.end - e.stepStart;
    if c.step == Completed then
      Books(b.open - {c.node},
            Append(Append(b.log, c.node, Duration(e.step, elapsed)), c.node, Duration(Total, c.end - e.upgradeStart)))
    else if e.step != c.step && Order(c.step) > Order(e.step) then
      Books(b.open[c.node := e.(stepStart := c.end, step := c.step)], Append(b.log, c.node, Duration(e.step, elapsed)))
    else
      Books(b.open[c.node := e], b.log)
  }

  /** The two maps a reconcile carries, updated in place. */
  class Recorder {
    var inProcessing: map<string, InProcessing>
    var nodeSteps: StepLog

    constructor ()
      ensures Value() == Books(map[], map[])
    {
      inProcessing, nodeSteps := map[], map[];
    }

    function Value(): Books
      reads this
    {
      Books(inProcessing, nodeSteps)
    }

    method AddNodeStepDuration(node: string, d: StepDuration)
      modifies this`nodeSteps
      ensures nodeSteps == Append(old(nodeSteps), node, d)
    {
      if node !in nodeSteps {
        assert [] + [d] == [d];
        nodeSteps := nodeSteps[node := [d]];
      } else {
        nodeSteps := nodeSteps[node := nodeSteps[node] + [d]];
      }
    }

    method DoNodeStep(c: Call)
      modifies this
      ensures Value() == DoStep(old(Value()), c)
    {
      if c.node !in inProcessing {
        inProcessing := inProcessing[c.node := InProcessing(c.step, c.first, c.second, 0)];
      }
      inProcessing := inProcessing[c.node := inProcessing[c.node].(stepEnd := c.end)];
      var e := inProcessing[c.node];
      var duration := e.stepEnd - e.stepStart;
      if c.step == Completed {
        AddNodeStepDuration(c.node, Duration(e.step, duration));
        AddNodeStepDuration(c.node, Duration(Total, e.stepEnd - e.upgradeStart));
        inProcessing := inProcessing - {c.node};
      } else if e.step != c.step {
        if Order(c.step) > Order(e.step) {
          inProcessing := inProcessing[c.node := e.(stepStart := c.end, step := c.step)];
          AddNodeStepDuration(c.node, Duration(e.step, duration));
        }
      }
      assert Value().open == DoStep(old(Value()), c).open;
    }
  }

  // ----- one rotation of one node, whatever other calls come in between -----

  function After(b: Books, calls: seq<Call>): Books {
    if calls == [] then b else DoStep(After(b, calls[..|calls| - 1]), calls[|calls| - 1])
  }

  function Sum(ds: seq<StepDuration>): int {
    if ds == [] then 0 else ds[0].length + Sum(ds[1..])
  }

  /** The steps of a rotation, in the order in which a node goes through them. */
  const ROTATION := [
    Kickoff, DesiredNodeReady, PredrainScript, Drain, PostdrainScript, PostWait,
    Terminate, PostTerminate, Terminated, Completed]

  ghost predicate Before(a: Step, b: Step) {
    exists p, q :: 0 <= p < q < |ROTATION| && ROTATION[p] == a && ROTATION[q] == b
  }

  lemma OrderAt(p: nat)
    requires p < |ROTATION|
    ensures Order(ROTATION[p]) == if p == 9 then 1000 else 10 * (p + 1)
  {
  }

  lemma Placed(a: Step) returns (p: nat)
    requires a != Total
    ensures p < |ROTATION| && ROTATION[p] == a
  {
    p := match a
      case Kickoff => 0
      case DesiredNodeReady => 1
      case PredrainScript => 2
      case Drain => 3
      case PostdrainScript => 4
      case PostWait => 5
      case Terminate => 6
      case PostTerminate => 7
      case Terminated => 8
      case Completed => 9;
  }

  /** The order table agrees with the order of a rotation. */
  lemma OrderAgrees(a: Step, b: Step)
    requires a != Total && b != Total
    ensures Order(a) < Order(b) <==> Before(a, b)
  {
    forall p | 0 <= p < |ROTATION|
      ensures Order(ROTATION[p]) == if p == 9 then 1000 else 10 * (p + 1)
    {
      OrderAt(p);
    }
    var p := Placed(a);
    var q := Placed(b);
    if Order(a) < Order(b) {
      assert p < q;
    }
  }

  ghost predicate Ascending(ds: seq<StepDuration>) {
    forall i, j :: 0 <= i < j < |ds| ==> Order(ds[i].step) < Order(ds[j].step)
  }

  /** The calls open the node's entry, contain no other completion of it, and end with its completion. */
  ghost predicate IsRotation(b: Books, calls: seq<Call>, node: string) {
    && node !in b.open
    && calls != [] && calls[0].node == node
    && (forall i :: 0 <= i < |calls| ==> calls[i].step != Total)
    && (forall i :: 0 <= i < |calls| && calls[i].node == node ==> (calls[i].step == Completed <==> i == |calls| - 1))
    && calls[|calls| - 1].node == node
  }

  /** Part of a rotation: what was recorded ascends below the current step and adds up to its start. */
  ghost predicate MidRotation(start: Books, now: Books, opening: Call, ds: seq<StepDuration>) {
    var node := opening.node;
    && node in now.open
    && Entries(now.log, node) == Entries(start.log, node) + ds
    && now.open[node].upgradeStart == opening.first
    && now.open[node].step != Completed
    && Leading(ds, now.open[node].step, now.open[node].stepStart - opening.second)
  }

  /** The durations of ascending steps before `step`, which add up to `elapsed`. */
  ghost predicate Leading(ds: seq<StepDuration>, step: Step, elapsed: int) {
    && step != Total
    && Sum(ds) == elapsed
    && Ascending(ds)
    && forall i :: 0 <= i < |ds| ==> Order(ds[i].step) < Order(step) && ds[i].step != Total
  }

  lemma LeadingSnoc(ds: seq<StepDuration>, d: StepDuration, step: Step, elapsed: int)
    requires Leading(ds, d.step, elapsed) && step != Total && Order(d.step) < Order(step)
    ensures Leading(ds + [d], step, elapsed + d.length)
  {
    SumSnoc(ds, d);
    AscendingSnoc(ds, d);
    var longer := ds + [d];
    forall i | 0 <= i < |longer|
      ensures Order(longer[i].step) < Order(step) && longer[i].step != Total
    {
      assert longer[i] == if i < |ds| then ds[i] else d;
    }
  }

  lemma {:induction false} SumSnoc(ds: seq<StepDuration>, d: StepDuration)
    ensures Sum(ds + [d]) == Sum(ds) + d.length
  {
    if ds == [] {
      assert ds + [d] == [d];
    } else {
      assert (ds + [d])[1..] == ds[1..] + [d];
      SumSnoc(ds[1..], d);
    }
  }

  /** A call leaves every other node's entry and log alone. */
  lemma OtherNode(b: Books, c: Call, node: string)
    requires c.node != node
    ensures Entries(DoStep(b, c).log, node) == Entries(b.log, node)
    ensures node in DoStep(b, c).open <==> node in b.open
    ensures node in b.open ==> DoStep(b, c).open[node] == b.open[node]
  {
  }

  lemma AscendingSnoc(ds: seq<StepDuration>, d: StepDuration)
    requires Ascending(ds) && forall i :: 0 <= i < |ds| ==> Order(ds[i].step) < Order(d.step)
    ensures Ascending(ds + [d])
  {
  }

  /** A step forward is recorded; any other non-completing call on an open node is not. */
  lemma OwnStep(b: Books, c: Call)
    requires c.node in b.open && c.step != Completed
    ensures var e, b' := b.open[c.node], DoStep(b, c);
      && c.node in b'.open && b'.open[c.node].upgradeStart == e.upgradeStart
      && if Order(c.step) > Order(e.step) then
           && b'.open[c.node].step == c.step && b'.open[c.node].stepStart == c.end
           && Entries(b'.log, c.node) == Entries(b.log, c.node) + [Duration(e.step, c.end - e.stepStart)]
         else
           && b'.open[c.node].step == e.step && b'.open[c.node].stepStart == e.stepStart
           && Entries(b'.log, c.node) == Entries(b.log, c.node)
  {
  }

  lemma MidStep(start: Books, now: Books, opening: Call, ds: seq<StepDuration>, c: Call)
    returns (ds': seq<StepDuration>)
    requires MidRotation(start, now, opening, ds) && c.step != Total && (c.node == opening.node ==> c.step != Completed)
    ensures MidRotation(start, DoStep(now, c), opening, ds')
  {
    if c.node != opening.node {
      OtherNode(now, c, opening.node);
      ds' := ds;
    } else {
      ds' := OwnMidStep(start, now, opening, ds, c);
    }
  }

  /** A call that closes the current step and opens a later one. */
  lemma MidForward(start: Books, now: Books, opening: Call, ds: seq<StepDuration>, c: Call, d: StepDuration)
    requires MidRotation(start, now, opening, ds) && c.node == opening.node
    requires c.step != Total && c.step != Completed && Order(c.step) > Order(now.open[c.node].step)
    requires d == Duration(now.open[c.node].step, c.end - now.open[c.node].stepStart)
    ensures MidRotation(start, DoStep(now, c), opening, ds + [d])
  {
    OwnStep(now, c);
    LeadingSnoc(ds, d, c.step, now.open[c.node].stepStart - opening.second);
    LaterEntries(Entries(start.log, c.node), ds, d);
  }

  lemma LaterEntries(before: seq<StepDuration>, ds: seq<StepDuration>, d: StepDuration)
    ensures before + ds + [d] == before + (ds + [d])
  {
  }

  lemma LaterPair(before: seq<StepDuration>, ds: seq<StepDuration>, d: StepDuration, e: StepDuration)
    ensures before + ds + [d, e] == before + (ds + [d, e])
  {
  }

  lemma OwnMidStep(start: Books, now: Books, opening: Call, ds: seq<StepDuration>, c: Call)
    returns (ds': seq<StepDuration>)
    requires MidRotation(start, now, opening, ds) && c.step != Total && c.step != Completed && c.node == opening.node
    ensures MidRotation(start, DoStep(now, c), opening, ds')
  {
    var e := now.open[c.node];
    if Order(c.step) > Order(e.step) {
      var d := Duration(e.step, c.end - e.stepStart);
      MidForward(start, now, opening, ds, c, d);
      ds' := ds + [d];
    } else {
      OwnStep(now, c);
      ds' := ds;
    }
  }

  lemma {:induction false} MidPrefix(b: Books, calls: seq<Call>, node: string, k: nat) returns (ds: seq<StepDuration>)
    requires IsRotation(b, calls, node) && 1 <= k < |calls|
    ensures MidRotation(b, After(b, calls[..k]), calls[0], ds)
  {
    assert calls[..k][..k - 1] == calls[..k - 1];
    if k == 1 {
      assert After(b, calls[..1]) == DoStep(b, calls[0]);
      ds := [];
    } else {
      var before := MidPrefix(b, calls, node, k - 1);
      ds := MidStep(b, After(b, calls[..k - 1]), calls[0], before, calls[k - 1]);
    }
  }

  /** What one rotation recorded: its steps in ascending order, then the total, to which they add up but for the gap. */
  ghost predicate Telescopes(recorded: seq<StepDuration>, opening: Call, closing: Call) {
    && |recorded| >= 2
    && var steps, total := recorded[..|recorded| - 1], recorded[|recorded| - 1];
       && total == Duration(Total, closing.end - opening.first)
       && (forall i, j :: 0 <= i < j < |steps| ==> Before(steps[i].step, steps[j].step))
       && (forall i :: 0 <= i < |steps| ==> steps[i].step != Total)
       && Sum(steps) == total.length - (opening.second - opening.first)
  }

  /** A completion records the current step and the total, and closes the entry. */
  lemma Completion(b: Books, c: Call)
    requires c.step == Completed
    ensures var e := if c.node in b.open then b.open[c.node] else InProcessing(c.step, c.first, c.second, 0);
      && c.node !in DoStep(b, c).open
      && Entries(DoStep(b, c).log, c.node) ==
         Entries(b.log, c.node) + [Duration(e.step, c.end - e.stepStart), Duration(Total, c.end - e.upgradeStart)]
  {
    var e := if c.node in b.open then b.open[c.node] else InProcessing(c.step, c.first, c.second, 0);
    var d, t := Duration(e.step, c.end - e.stepStart), Duration(Total, c.end - e.upgradeStart);
    assert Entries(b.log, c.node) + [d] + [t] == Entries(b.log, c.node) + [d, t];
  }

  lemma TelescopesOf(steps: seq<StepDuration>, d: StepDuration, opening: Call, closing: Call)
    requires Leading(steps, d.step, closing.end - opening.second - d.length)
    ensures Telescopes(steps + [d, Duration(Total, closing.end - opening.first)], opening, closing)
  {
    var recorded := steps + [d, Duration(Total, closing.end - opening.first)];
    SumSnoc(steps, d);
    AscendingSnoc(steps, d);
    assert recorded[..|recorded| - 1] == steps + [d];
    AscendingIsBefore(steps + [d]);
  }

  lemma AscendingIsBefore(ds: seq<StepDuration>)
    requires Ascending(ds) && forall i :: 0 <= i < |ds| ==> ds[i].step != Total
    ensures forall i, j :: 0 <= i < j < |ds| ==> Before(ds[i].step, ds[j].step)
  {
    forall i, j | 0 <= i < j < |ds|
      ensures Before(ds[i].step, ds[j].step)
    {
      OrderAgrees(ds[i].step, ds[j].step);
    }
  }

  /** The completing call of an open rotation. */
  lemma CloseRotation(b: Books, before: Books, opening: Call, steps: seq<StepDuration>, c: Call)
    returns (recorded: seq<StepDuration>)
    requires MidRotation(b, before, opening, steps) && c.node == opening.node && c.step == Completed
    ensures Entries(DoStep(before, c).log, c.node) == Entries(b.log, c.node) + recorded
    ensures Telescopes(recorded, opening, c)
  {
    var e := before.open[c.node];
    var d, total := Duration(e.step, c.end - e.stepStart), Duration(Total, c.end - opening.first);
    Completion(before, c);
    TelescopesOf(steps, d, opening, c);
    recorded := steps + [d, total];
    LaterPair(Entries(b.log, c.node), steps, d, total);
  }

  /** A call that opens and completes the entry at once. */
  lemma OnlyCompletion(b: Books, c: Call) returns (recorded: seq<StepDuration>)
    requires c.node !in b.open && c.step == Completed
    ensures Entries(DoStep(b, c).log, c.node) == Entries(b.log, c.node) + recorded
    ensures Telescopes(recorded, c, c)
  {
    var d, total := Duration(c.step, c.end - c.second), Duration(Total, c.end - c.first);
    Completion(b, c);
    TelescopesOf([], d, c, c);
    recorded := [] + [d, total];
    assert recorded == [d, total];
  }

  /**
   * For any interleaving of whole calls over any nodes: the entries one rotation of a node adds to its
   * log have strictly increasing order with the total last, and their durations sum to the total
   * less the gap between the two clock reads at the opening. Afterwards the node is no longer open.
   */
  lemma RotationTelescopes(b: Books, calls: seq<Call>, node: string)
    requires IsRotation(b, calls, node)
    ensures node !in After(b, calls).open
    ensures var before, after := Entries(b.log, node), Entries(After(b, calls).log, node);
      before <= after && Telescopes(after[|before|..], calls[0], calls[|calls| - 1])
  {
    var n := |calls|;
    var c, mid := calls[n - 1], After(b, calls[..n - 1]);
    assert c.step == Completed;
    Completion(mid, c);
    var recorded;
    if n == 1 {
      assert calls[..0] == [];
      recorded := OnlyCompletion(b, c);
    } else {
      var steps := MidPrefix(b, calls, node, n - 1);
      recorded := CloseRotation(b, mid, calls[0], steps, c);
    }
    var before := Entries(b.log, node);
    assert (before + recorded)[|before|..] == recorded;
  }
}
