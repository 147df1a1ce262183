/**
 * The copilot server's rule-based triage (`ai_triage`): outage
 * probabilities and the CHI (customer happiness index) become a
 * prioritised task list.
 */
module TriageRules {
  import opened Wrappers

  /** One element of `outages`; either key may be missing. */
  datatype Outage = Outage(region: Option<string>, probability: Option<real>)

  /** The three priorities a task can carry, most urgent first. */
  datatype Priority = P0 | P1 | P2 {
    function Name(): string
    {
      match this
      case P0 => "P0"
      case P1 => "P1"
      case P2 => "P2"
    }
  }

  /**
   * One prioritised task, less its `why` text. The four kinds of task the
   * rules emit each fix the priority, title, impact and effort of the task.
   */
  datatype Task = Mitigate(region: string) | Comms(region: string) | BoostChi | AllClear {
    function Urgency(): Priority
    {
      match this
      case Mitigate(_) => P0
      case Comms(_) => P1
      case BoostChi => P1
      case AllClear => P2
    }

    function Title(): string
    {
      match this
      case Mitigate(region) => "Mitigate outage risk in " + region
      case Comms(region) => "Prepare comms for " + region
      case BoostChi => "Boost CHI by addressing top pain point"
      case AllClear => "All clear – monitor"
    }

    function Impact(): string
    {
      match this
      case Mitigate(_) => "High"
      case Comms(_) => "Medium"
      case BoostChi => "High"
      case AllClear => "Low"
    }

    function Effort(): string
    {
      match this
      case Mitigate(_) => "Medium"
      case Comms(_) => "Low"
      case BoostChi => "Medium"
      case AllClear => "Low"
    }
  }

  /** The handler's outcome: the task list, or the `KeyError` raised by the outage at `index` that needs a region and has none. */
  datatype Triage = Tasks(tasks: seq<Task>) | MissingRegion(index: nat)

  /** `o.get("probability", 0)`. */
  function Probability(o: Outage): real
  {
    o.probability.GetOr(0.0)
  }

  datatype Risk = Severe | Moderate | Calm

  function RiskOf(o: Outage): Risk
  {
    if Probability(o) >= 0.6 then Severe
    else if Probability(o) >= 0.4 then Moderate
    else Calm
  }

  /** Only outages that produce a task read `o['region']`. */
  predicate LacksRegion(o: Outage)
  {
    RiskOf(o) != Calm && o.region.None?
  }

  /**
   * The task one outage contributes: none below 0.4; otherwise one task
   * about its region (the empty name when it has none).
   */
  function TaskFor(o: Outage): seq<Task>
  {
    match RiskOf(o)
    case Severe => [Mitigate(o.region.GetOr(""))]
    case Moderate => [Comms(o.region.GetOr(""))]
    case Calm => []
  }

  /** At most one task per outage: none below 0.4, else a P0 mitigation from 0.6 or a P1 comms task, about the outage's region. */
  lemma TaskForShape(o: Outage)
    ensures |TaskFor(o)| <= 1
    ensures TaskFor(o) == [] <==> Probability(o) < 0.4
    ensures TaskFor(o) != [] ==> (TaskFor(o)[0].Mitigate? || TaskFor(o)[0].Comms?) && TaskFor(o)[0].region == o.region.GetOr("")
    ensures TaskFor(o) != [] ==> (TaskFor(o)[0].Urgency() == P0 <==> Probability(o) >= 0.6)
  {
  }

  /** The tasks the outages contribute, in outage order. */
  function OutageTasks(outages: seq<Outage>): seq<Task>
  {
    if outages == [] then [] else OutageTasks(outages[..|outages| - 1]) + TaskFor(outages[|outages| - 1])
  }

  /** One more outage appends its own task. */
  lemma OutageTasksSnoc(outages: seq<Outage>, i: nat)
    requires i < |outages|
    ensures OutageTasks(outages[..i + 1]) == OutageTasks(outages[..i]) + TaskFor(outages[i])
  {
    assert outages[..i + 1][..i] == outages[..i];
  }

  /** An outage at 0.6 or above that names its region appends its mitigation task. */
  lemma MitigateStep(outages: seq<Outage>, i: nat)
    requires i < |outages| && Probability(outages[i]) >= 0.6 && outages[i].region.Some?
    ensures !LacksRegion(outages[i])
    ensures OutageTasks(outages[..i + 1]) == OutageTasks(outages[..i]) + [Mitigate(outages[i].region.value)]
  {
    OutageTasksSnoc(outages, i);
  }

  /** An outage in [0.4, 0.6) that names its region appends its comms task. */
  lemma CommsStep(outages: seq<Outage>, i: nat)
    requires i < |outages| && 0.4 <= Probability(outages[i]) < 0.6 && outages[i].region.Some?
    ensures !LacksRegion(outages[i])
    ensures OutageTasks(outages[..i + 1]) == OutageTasks(outages[..i]) + [Comms(outages[i].region.value)]
  {
    OutageTasksSnoc(outages, i);
  }

  /** An outage below 0.4 appends nothing. */
  lemma CalmStep(outages: seq<Outage>, i: nat)
    requires i < |outages| && Probability(outages[i]) < 0.4
    ensures !LacksRegion(outages[i])
    ensures OutageTasks(outages[..i + 1]) == OutageTasks(outages[..i])
  {
    OutageTasksSnoc(outages, i);
  }

  /** The first outage that needs a region and lacks one, `|outages|` when there is none. */
  function FirstMissingRegion(outages: seq<Outage>): (i: nat)
    ensures i <= |outages|
    ensures i < |outages| ==> LacksRegion(outages[i])
    ensures forall j :: 0 <= j < i ==> !LacksRegion(outages[j])
  {
    if outages == [] then 0
    else if LacksRegion(outages[0]) then 0
    else 1 + FirstMissingRegion(outages[1..])
  }

  /** The reference outcome: the outage tasks, then the CHI task when CHI is below 80, or the all-clear task alone. */
  function TriageSpec(outages: seq<Outage>, chi: int): (r: Triage)
    ensures r.MissingRegion? <==> exists j :: 0 <= j < |outages| && LacksRegion(outages[j])
    ensures r.Tasks? ==> r.tasks != []
  {
    var m := FirstMissingRegion(outages);
    if m < |outages| then MissingRegion(m)
    else
      var ts := RuleTasks(outages, chi);
      Tasks(if ts == [] then [AllClear] else ts)
  }

  /** The tasks the rules produce before the fallback. */
  function RuleTasks(outages: seq<Outage>, chi: int): seq<Task>
  {
    OutageTasks(outages) + (if chi < 80 then [BoostChi] else [])
  }

  /** The rule tasks begin with the outage tasks and end with the CHI task, the one task more, when CHI is below 80. */
  lemma RuleTasksShape(outages: seq<Outage>, chi: int)
    ensures OutageTasks(outages) <= RuleTasks(outages, chi)
    ensures |RuleTasks(outages, chi)| == |OutageTasks(outages)| + (if chi < 80 then 1 else 0)
    ensures chi < 80 ==> RuleTasks(outages, chi)[|RuleTasks(outages, chi)| - 1] == BoostChi
  {
  }

  /** The handler stops at an outage lacking its region when none before it does. */
  lemma StopsAt(outages: seq<Outage>, chi: int, i: nat)
    requires i < |outages| && LacksRegion(outages[i])
    requires forall j :: 0 <= j < i ==> !LacksRegion(outages[j])
    ensures TriageSpec(outages, chi) == MissingRegion(i)
  {
  }

  /** When no outage lacks its region, the handler returns the rule tasks or, when there are none, the all-clear task. */
  lemma Finishes(outages: seq<Outage>, chi: int, tasks: seq<Task>)
    requires forall j :: 0 <= j < |outages| ==> !LacksRegion(outages[j])
    requires tasks == RuleTasks(outages, chi)
    ensures TriageSpec(outages, chi) == Tasks(if tasks == [] then [AllClear] else tasks)
  {
  }

  /**
   * The loop of `ai_triage`: one task per risky outage, in outage order, or
   * the index of the first risky outage without a region, where `o['region']`
   * raises.
   */
  method ScanOutages(outages: seq<Outage>) returns (missing: Option<nat>, tasks: seq<Task>)
    ensures missing.None? ==> tasks == OutageTasks(outages)
    ensures missing.None? ==> forall j :: 0 <= j < |outages| ==> !LacksRegion(outages[j])
    ensures missing.Some? ==> missing.value < |outages| && LacksRegion(outages[missing.value])
    ensures missing.Some? ==> forall j :: 0 <= j < missing.value ==> !LacksRegion(outages[j])
  {
    tasks := [];
    var i := 0;
    while i < |outages|
      invariant 0 <= i <= |outages|
      invariant tasks == OutageTasks(outages[..i])
      invariant forall j :: 0 <= j < i ==> !LacksRegion(outages[j])
    {
      var o := outages[i];
      var pr := Probability(o);
      if pr >= 0.6 {
        if o.region.None? {
          return Some(i), tasks;
        }
        MitigateStep(outages, i);
        tasks := tasks + [Mitigate(o.region.value)];
      } else if pr >= 0.4 {
        if o.region.None? {
          return Some(i), tasks;
        }
        CommsStep(outages, i);
        tasks := tasks + [Comms(o.region.value)];
      } else {
        CalmStep(outages, i);
      }
      i := i + 1;
    }
    assert outages[..i] == outages;
    missing := None;
  }

  /** `ai_triage`: the outage loop, then the CHI rule and the fallback. */
  method AiTriage(outages: seq<Outage>, chi: int) returns (r: Triage)
    ensures r == TriageSpec(outages, chi)
  {
    var missing, tasks := ScanOutages(outages);
    if missing.Some? {
      StopsAt(outages, chi, missing.value);
      return MissingRegion(missing.value);
    }
    if chi < 80 {
      tasks := tasks + [BoostChi];
    }
    Finishes(outages, chi, tasks);
    if tasks == [] {
      tasks := tasks + [AllClear];
    }
    r := Tasks(tasks);
  }

  function CountPriority(ts: seq<Task>, p: Priority): nat
  {
    if ts == [] then 0 else CountPriority(ts[..|ts| - 1], p) + (if ts[|ts| - 1].Urgency() == p then 1 else 0)
  }

  function CountRisk(outages: seq<Outage>, risk: Risk): nat
  {
    if outages == [] then 0 else CountRisk(outages[..|outages| - 1], risk) + (if RiskOf(outages[|outages| - 1]) == risk then 1 else 0)
  }

  lemma {:induction false} CountPriorityAppend(a: seq<Task>, b: seq<Task>, p: Priority)
    ensures CountPriority(a + b, p) == CountPriority(a, p) + CountPriority(b, p)
    decreases |b|
  {
    if b != [] {
      assert (a + b)[..|a + b| - 1] == a + b[..|b| - 1];
      assert (a + b)[|a + b| - 1] == b[|b| - 1];
      CountPriorityAppend(a, b[..|b| - 1], p);
    } else {
      assert a + b == a;
    }
  }

  /** The count of a single task. */
  lemma CountPrioritySingle(t: Task, p: Priority)
    ensures CountPriority([t], p) == if t.Urgency() == p then 1 else 0
  {
    assert [t][..0] == [];
  }

  /** The risk whose outages produce tasks of priority `p`; none for P2. */
  function RiskFor(p: Priority): Option<Risk>
  {
    match p
    case P0 => Some(Severe)
    case P1 => Some(Moderate)
    case P2 => None
  }

  /** An outage contributes a task of priority `p` exactly when its risk is the one `p` stands for. */
  lemma TaskForPriority(o: Outage, p: Priority)
    ensures CountPriority(TaskFor(o), p) == if RiskFor(p) == Some(RiskOf(o)) then 1 else 0
  {
    if TaskFor(o) != [] {
      CountPrioritySingle(TaskFor(o)[0], p);
    }
  }

  /** The tasks of priority `p` among the outage tasks: one per outage of the matching risk. */
  lemma {:induction false} OutageTaskCount(outages: seq<Outage>, p: Priority)
    ensures CountPriority(OutageTasks(outages), p) ==
      if RiskFor(p).Some? then CountRisk(outages, RiskFor(p).value) else 0
  {
    if outages != [] {
      var front := outages[..|outages| - 1];
      OutageTaskCount(front, p);
      CountPriorityAppend(OutageTasks(front), TaskFor(outages[|outages| - 1]), p);
      TaskForPriority(outages[|outages| - 1], p);
    }
  }

  /**
   * The outage tasks hold one P0 task per outage at 0.6 or above, one P1
   * task per outage in [0.4, 0.6), and no P2 task.
   */
  lemma OutageTaskCounts(outages: seq<Outage>)
    ensures CountPriority(OutageTasks(outages), P0) == CountRisk(outages, Severe)
    ensures CountPriority(OutageTasks(outages), P1) == CountRisk(outages, Moderate)
    ensures CountPriority(OutageTasks(outages), P2) == 0
  {
    OutageTaskCount(outages, P0);
    OutageTaskCount(outages, P1);
    OutageTaskCount(outages, P2);
  }

  /** The tasks of a prefix of the outages begin the tasks of all of them. */
  lemma {:induction false} OutageTasksPrefix(outages: seq<Outage>, j: nat)
    requires j <= |outages|
    ensures OutageTasks(outages[..j]) <= OutageTasks(outages)
  {
    if j < |outages| {
      var front := outages[..|outages| - 1];
      assert front[..j] == outages[..j];
      OutageTasksPrefix(front, j);
    } else {
      assert outages[..j] == outages;
    }
  }

  /**
   * Outage tasks keep outage order: a risky outage `j` has its own task
   * right after the tasks of the outages before it.
   */
  lemma OutageTaskPosition(outages: seq<Outage>, j: nat)
    requires j < |outages| && RiskOf(outages[j]) != Calm
    ensures |OutageTasks(outages[..j])| < |OutageTasks(outages)|
    ensures OutageTasks(outages)[|OutageTasks(outages[..j])|] == TaskFor(outages[j])[0]
  {
    OutageTasksPrefix(outages, j + 1);
    var before := OutageTasks(outages[..j]);
    assert outages[..j + 1][..j] == outages[..j];
    assert OutageTasks(outages[..j + 1]) == before + TaskFor(outages[j]);
    assert OutageTasks(outages[..j + 1])[|before|] == TaskFor(outages[j])[0];
  }

  /** The CHI task adds one P1 task to the outage tasks, and nothing else. */
  lemma RuleTaskCount(outages: seq<Outage>, chi: int, p: Priority)
    ensures CountPriority(RuleTasks(outages, chi), p) ==
      CountPriority(OutageTasks(outages), p) + (if chi < 80 && p == P1 then 1 else 0)
  {
    var extra := if chi < 80 then [BoostChi] else [];
    CountPriorityAppend(OutageTasks(outages), extra, p);
    CountPrioritySingle(BoostChi, p);
  }

  /** The rules produce one P0 task per outage at 0.6 or above, one P1 task per outage in [0.4, 0.6) plus the CHI task, and no P2 task. */
  lemma RuleTaskCounts(outages: seq<Outage>, chi: int)
    ensures CountPriority(RuleTasks(outages, chi), P0) == CountRisk(outages, Severe)
    ensures CountPriority(RuleTasks(outages, chi), P1) == CountRisk(outages, Moderate) + (if chi < 80 then 1 else 0)
    ensures CountPriority(RuleTasks(outages, chi), P2) == 0
  {
    OutageTaskCounts(outages);
    RuleTaskCount(outages, chi, P0);
    RuleTaskCount(outages, chi, P1);
    RuleTaskCount(outages, chi, P2);
  }

  /**
   * When every risky outage names its region, the list is never empty, and
   * the all-clear task appears exactly when no outage is risky and CHI is
   * at least 80, and is then the only task.
   */
  lemma TriageFallback(outages: seq<Outage>, chi: int)
    requires FirstMissingRegion(outages) == |outages|
    ensures TriageSpec(outages, chi).Tasks?
    ensures |TriageSpec(outages, chi).tasks| >= 1
    ensures AllClear in TriageSpec(outages, chi).tasks <==>
      (forall j :: 0 <= j < |outages| ==> RiskOf(outages[j]) == Calm) && chi >= 80
    ensures AllClear in TriageSpec(outages, chi).tasks ==> TriageSpec(outages, chi).tasks == [AllClear]
  {
    var ts := RuleTasks(outages, chi);
    NoTasksIffCalm(outages);
    if AllClear in ts {
      RuleTaskCounts(outages, chi);
      var k :| 0 <= k < |ts| && ts[k] == AllClear;
      CountPriorityMember(ts, k, P2);
    }
  }

  /** P0 tasks match the outages at 0.6 or above, and P1 tasks the outages in [0.4, 0.6) plus the CHI task. */
  lemma TriageCounts(outages: seq<Outage>, chi: int)
    requires FirstMissingRegion(outages) == |outages|
    ensures TriageSpec(outages, chi).Tasks?
    ensures CountPriority(TriageSpec(outages, chi).tasks, P0) == CountRisk(outages, Severe)
    ensures CountPriority(TriageSpec(outages, chi).tasks, P1) ==
      CountRisk(outages, Moderate) + (if chi < 80 then 1 else 0)
  {
    RuleTaskCounts(outages, chi);
    CountPrioritySingle(AllClear, P0);
    CountPrioritySingle(AllClear, P1);
  }

  /** No outage task is produced exactly when every outage is below 0.4. */
  lemma {:induction false} NoTasksIffCalm(outages: seq<Outage>)
    ensures OutageTasks(outages) == [] <==> forall j :: 0 <= j < |outages| ==> RiskOf(outages[j]) == Calm
  {
    if outages != [] {
      var front, last := outages[..|outages| - 1], outages[|outages| - 1];
      NoTasksIffCalm(front);
      assert |OutageTasks(outages)| == |OutageTasks(front)| + |TaskFor(last)|;
      assert |TaskFor(last)| == 0 <==> RiskOf(last) == Calm;
      assert forall j :: 0 <= j < |front| ==> front[j] == outages[j];
      assert (forall j :: 0 <= j < |outages| ==> RiskOf(outages[j]) == Calm) <==>
        (forall j :: 0 <= j < |front| ==> RiskOf(front[j]) == Calm) && RiskOf(last) == Calm;
    }
  }

  lemma {:induction false} CountPriorityMember(ts: seq<Task>, k: nat, p: Priority)
    requires k < |ts| && ts[k].Urgency() == p
    ensures CountPriority(ts, p) >= 1
  {
    if k < |ts| - 1 {
      CountPriorityMember(ts[..|ts| - 1], k, p);
    }
  }

  /** A risky outage without a region stops the handler at the first such outage. */
  lemma TriageFailsAtFirstMissingRegion(outages: seq<Outage>, chi: int, j: nat)
    requires j < |outages| && LacksRegion(outages[j])
    ensures TriageSpec(outages, chi).MissingRegion? && TriageSpec(outages, chi).index <= j
    ensures LacksRegion(outages[TriageSpec(outages, chi).index])
  {
  }
}
