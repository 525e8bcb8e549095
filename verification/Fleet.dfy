/** Instances, scaling groups and nodes as discovered, the searches over them, and drift. */
module Fleet {
  import opened Common
  import opened Numerals

  /** Instance IDs are taken as normalised, so that folding comparison of two IDs is equality. */
  type InstanceId = string

  datatype Lifecycle =
    | Pending | PendingWait | PendingProceed | Quarantined
    | InService
    | EnteringStandby | Standby
    | Detaching | Detached
    | Terminating | TerminatingWait | TerminatingProceed | Terminated
    | WarmedPending | WarmedPendingWait | WarmedPendingProceed
    | WarmedStopped | WarmedRunning | WarmedHibernated
    | WarmedTerminating | WarmedTerminatingWait | WarmedTerminatingProceed | WarmedTerminated
  {
    /** Membership in TerminatingInstanceStates. */
    predicate Leaving() {
      || Terminating? || TerminatingWait? || TerminatingProceed? || Terminated?
      || WarmedTerminating? || WarmedTerminatingWait? || WarmedTerminatingProceed? || WarmedTerminated?
    }
  }

  /** The state's name in the autoscaling API. */
  function StateName(l: Lifecycle): string {
    match l
    case Pending => "Pending"
    case PendingWait => "Pending:Wait"
    case PendingProceed => "Pending:Proceed"
    case Quarantined => "Quarantined"
    case InService => "InService"
    case EnteringStandby => "EnteringStandby"
    case Standby => "Standby"
    case Detaching => "Detaching"
    case Detached => "Detached"
    case Terminating => "Terminating"
    case TerminatingWait => "Terminating:Wait"
    case TerminatingProceed => "Terminating:Proceed"
    case Terminated => "Terminated"
    case WarmedPending => "Warmed:Pending"
    case WarmedPendingWait => "Warmed:Pending:Wait"
    case WarmedPendingProceed => "Warmed:Pending:Proceed"
    case WarmedStopped => "Warmed:Stopped"
    case WarmedRunning => "Warmed:Running"
    case WarmedHibernated => "Warmed:Hibernated"
    case WarmedTerminating => "Warmed:Terminating"
    case WarmedTerminatingWait => "Warmed:Terminating:Wait"
    case WarmedTerminatingProceed => "Warmed:Terminating:Proceed"
    case WarmedTerminated => "Warmed:Terminated"
  }

  /** On their way out are the states called terminating or terminated, in the warm pool or not. */
  lemma LeavingByName(l: Lifecycle)
    ensures l.Leaving() <==> "Terminat" <= StateName(l) || "Warmed:Terminat" <= StateName(l)
  {
    var name := StateName(l);
    assert "Terminat"[0] == "Warmed:Terminat"[7] == 'T';
    assert l.Leaving() ==> name[0] == 'T' || (name[0] == 'W' && name[7] == 'T');
    assert !l.Leaving() ==> name[0] != 'T' && (name[0] == 'W' ==> name[7] != 'T');
  }

  datatype TemplateRef = TemplateRef(name: string, version: string)

  datatype LaunchTemplate = LaunchTemplate(name: string, latest: nat)

  datatype Instance = Instance(
    id: InstanceId,
    lifecycle: Lifecycle,
    zone: string,
    launchConfig: Option<string>,
    template: Option<TemplateRef>)

  datatype Group = Group(
    name: string,
    desired: nat,
    instances: seq<Instance>,
    launchConfig: Option<string>,
    template: Option<TemplateRef>,
    mixed: Option<TemplateRef>)

  datatype Condition = Condition(kind: string, status: string)

  datatype Node = Node(
    name: string,
    providerId: string,
    created: int,
    conditions: seq<Condition>,
    labels: map<string, string>)

  // ----- searches -----

  function SelectScalingGroup(name: string, groups: seq<Group>): (r: Option<Group>)
    ensures r.Some? ==> r.value in groups && EqualFold(r.value.name, name)
    ensures r.None? ==> forall g :: g in groups ==> !EqualFold(g.name, name)
  {
    if groups == [] then None
    else if EqualFold(groups[0].name, name) then Some(groups[0])
    else SelectScalingGroup(name, groups[1..])
  }

  function SelectScalingGroupInstance(id: InstanceId, instances: seq<Instance>): (r: Option<Instance>)
    ensures r.Some? ==> r.value in instances && r.value.id == id
    ensures r.None? ==> forall i :: i in instances ==> i.id != id
  {
    if instances == [] then None
    else if instances[0].id == id then Some(instances[0])
    else SelectScalingGroupInstance(id, instances[1..])
  }

  /** The last "/"-separated token of a provider ID. */
  function LastToken(s: string): (r: string)
    ensures '/' !in r && ('/' !in s ==> r == s)
  {
    if s == "" || s[|s| - 1] == '/' then ""
    else LastToken(s[..|s| - 1]) + [s[|s| - 1]]
  }

  function GetNodeInstanceID(node: Node): InstanceId {
    LastToken(node.providerId)
  }

  function SelectNodeByInstanceID(id: InstanceId, nodes: seq<Node>): (r: Option<Node>)
    ensures r.Some? ==> r.value in nodes && GetNodeInstanceID(r.value) == id
    ensures r.None? ==> forall n :: n in nodes ==> GetNodeInstanceID(n) != id
  {
    if nodes == [] then None
    else if GetNodeInstanceID(nodes[0]) == id then Some(nodes[0])
    else SelectNodeByInstanceID(id, nodes[1..])
  }

  /** Of several groups of the name, the first is selected. */
  lemma {:induction false} FirstGroup(name: string, groups: seq<Group>, k: nat)
    requires k < |groups| && EqualFold(groups[k].name, name)
    requires forall j :: 0 <= j < k ==> !EqualFold(groups[j].name, name)
    ensures SelectScalingGroup(name, groups) == Some(groups[k])
  {
    if k > 0 {
      FirstGroup(name, groups[1..], k - 1);
    }
  }

  lemma {:induction false} FirstInstance(id: InstanceId, instances: seq<Instance>, k: nat)
    requires k < |instances| && instances[k].id == id && forall j :: 0 <= j < k ==> instances[j].id != id
    ensures SelectScalingGroupInstance(id, instances) == Some(instances[k])
  {
    if k > 0 {
      FirstInstance(id, instances[1..], k - 1);
    }
  }

  lemma {:induction false} FirstNode(id: InstanceId, nodes: seq<Node>, k: nat)
    requires k < |nodes| && GetNodeInstanceID(nodes[k]) == id
    requires forall j :: 0 <= j < k ==> GetNodeInstanceID(nodes[j]) != id
    ensures SelectNodeByInstanceID(id, nodes) == Some(nodes[k])
  {
    if k > 0 {
      FirstNode(id, nodes[1..], k - 1);
    }
  }

  function GetTemplateLatestVersion(templates: seq<LaunchTemplate>, name: string): string {
    if templates == [] then "0"
    else if EqualFold(templates[0].name, name) then Decimal(templates[0].latest)
    else GetTemplateLatestVersion(templates[1..], name)
  }

  /** The template is the first one of the name. */
  ghost predicate IsFirst(templates: seq<LaunchTemplate>, name: string, k: int) {
    && 0 <= k < |templates| && EqualFold(templates[k].name, name)
    && forall j :: 0 <= j < k ==> !EqualFold(templates[j].name, name)
  }

  /** The first template of the name decides, and its version number can be read back from the string. */
  lemma {:induction false} LatestVersionOfFirst(templates: seq<LaunchTemplate>, name: string, k: nat)
    requires IsFirst(templates, name, k)
    ensures GetTemplateLatestVersion(templates, name) == Decimal(templates[k].latest)
    ensures templates[k].latest <= MAX_INT ==>
      Atoi(GetTemplateLatestVersion(templates, name)) == (templates[k].latest, true)
  {
    if k == 0 {
      if templates[0].latest <= MAX_INT {
        AtoiOfDecimal(templates[0].latest);
      }
    } else {
      LatestVersionOfFirst(templates[1..], name, k - 1);
    }
  }

  lemma {:induction false} SomeFirst(templates: seq<LaunchTemplate>, name: string) returns (k: nat)
    requires exists t :: t in templates && EqualFold(t.name, name)
    ensures IsFirst(templates, name, k)
  {
    if EqualFold(templates[0].name, name) {
      k := 0;
    } else {
      var rest := SomeFirst(templates[1..], name);
      k := rest + 1;
    }
  }

  lemma {:induction false} LatestVersionOfUnknown(templates: seq<LaunchTemplate>, name: string)
    requires forall t :: t in templates ==> !EqualFold(t.name, name)
    ensures GetTemplateLatestVersion(templates, name) == "0"
  {
    if templates != [] {
      LatestVersionOfUnknown(templates[1..], name);
    }
  }

  lemma LastTokenSnoc(s: string, c: char)
    requires c != '/'
    ensures LastToken(s + [c]) == LastToken(s) + [c]
  {
    assert (s + [c])[..|s + [c]| - 1] == s;
  }

  /** Whatever path precedes it, the instance ID at the end of a provider ID is recovered. */
  lemma {:induction false} LastTokenOfPath(path: string, id: string)
    requires '/' !in id
    ensures LastToken(path + ['/'] + id) == id
  {
    if id == "" {
      assert path + ['/'] + id == path + ['/'];
    } else {
      var init, c := id[..|id| - 1], id[|id| - 1];
      LastTokenOfPath(path, init);
      LastTokenSnoc(path + ['/'] + init, c);
      assert id == init + [c];
      assert path + ['/'] + id == path + ['/'] + init + [c];
    }
  }

  // ----- InService members -----

  function InServiceId(i: Instance): seq<InstanceId> {
    if i.lifecycle == InService then [i.id] else []
  }

  function InServiceIds(instances: seq<Instance>): seq<InstanceId> {
    if instances == [] then [] else
      InServiceIds(instances[..|instances| - 1]) + InServiceId(instances[|instances| - 1])
  }

  method GetInServiceInstanceIDs(instances: seq<Instance>) returns (ids: seq<InstanceId>)
    ensures ids == InServiceIds(instances)
  {
    ids := [];
    for i := 0 to |instances|
      invariant ids == InServiceIds(instances[..i])
    {
      assert instances[..i + 1][..i] == instances[..i];
      if instances[i].lifecycle == InService {
        ids := ids + [instances[i].id];
      }
    }
    assert instances[..|instances|] == instances;
  }

  lemma InServiceSnoc(init: seq<Instance>, last: Instance)
    ensures InServiceIds(init + [last]) == InServiceIds(init) + InServiceId(last)
  {
    assert (init + [last])[..|init|] == init;
  }

  function Ids(instances: seq<Instance>): set<InstanceId> {
    set i | i in instances :: i.id
  }

  ghost predicate DistinctIds(instances: seq<Instance>) {
    forall i, j :: 0 <= i < j < |instances| ==> instances[i].id != instances[j].id
  }

  /** The instances whose IDs are not among `gone`. */
  ghost function Without(instances: seq<Instance>, gone: set<InstanceId>): seq<Instance> {
    if instances == [] then [] else
      var init, last := instances[..|instances| - 1], instances[|instances| - 1];
      if last.id in gone then Without(init, gone) else Without(init, gone) + [last]
  }

  lemma {:induction false} WithoutMember(instances: seq<Instance>, gone: set<InstanceId>, x: Instance)
    ensures x in Without(instances, gone) <==> x in instances && x.id !in gone
  {
    if instances != [] {
      var init, last := instances[..|instances| - 1], instances[|instances| - 1];
      WithoutMember(init, gone, x);
      assert instances == init + [last];
    }
  }

  lemma {:induction false} WithoutDistinct(s: seq<Instance>, gone: set<InstanceId>)
    requires DistinctIds(s)
    ensures DistinctIds(Without(s, gone))
  {
    if s != [] {
      var init, last := s[..|s| - 1], s[|s| - 1];
      WithoutDistinct(init, gone);
      forall i: Instance | i in Without(init, gone)
        ensures i.id != last.id
      {
        WithoutMember(init, gone, i);
        var k :| 0 <= k < |init| && init[k] == i;
        assert s[k].id != s[|s| - 1].id;
      }
    }
  }

  lemma {:induction false} InServiceMember(instances: seq<Instance>, id: InstanceId)
    ensures id in InServiceIds(instances) <==> exists i :: i in instances && i.id == id && i.lifecycle == InService
  {
    if instances != [] {
      var init, last := instances[..|instances| - 1], instances[|instances| - 1];
      InServiceMember(init, id);
      assert instances == init + [last];
    }
  }

  lemma {:induction false} InServiceDistinct(instances: seq<Instance>)
    requires DistinctIds(instances)
    ensures Distinct(InServiceIds(instances))
  {
    if instances != [] {
      var init, last := instances[..|instances| - 1], instances[|instances| - 1];
      InServiceDistinct(init);
      InServiceMember(init, last.id);
      DistinctSnoc(InServiceIds(init), last.id);
    }
  }

  lemma {:induction false} SelectsTheMember(instances: seq<Instance>, i: Instance)
    requires DistinctIds(instances) && i in instances
    ensures SelectScalingGroupInstance(i.id, instances) == Some(i)
  {
    if instances[0] != i {
      var k :| 0 <= k < |instances| && instances[k] == i;
      assert instances[1..][k - 1] == i;
      SelectsTheMember(instances[1..], i);
    }
  }

  // ----- drift -----

  const LATEST := "$Latest"

  /** What a drift check reads: the group, the launch templates, the nodes and the upgrade's own fields. */
  datatype Snapshot = Snapshot(
    group: Group,
    templates: seq<LaunchTemplate>,
    nodes: seq<Node>,
    forceRefresh: bool,
    created: int)

  function ResolveVersion(templates: seq<LaunchTemplate>, t: TemplateRef): string {
    if EqualFold(t.version, LATEST) then GetTemplateLatestVersion(templates, t.name) else t.version
  }

  predicate TemplateDrifted(templates: seq<LaunchTemplate>, wanted: TemplateRef, actual: Option<TemplateRef>) {
    if actual.None? then true
    else if !EqualFold(wanted.name, actual.value.name) then true
    else !EqualFold(actual.value.version, ResolveVersion(templates, wanted))
  }

  predicate IsInstanceDrifted(s: Snapshot, instance: Instance) {
    if instance.lifecycle.Leaving() then false
    else
      var node := SelectNodeByInstanceID(instance.id, s.nodes);
      if s.forceRefresh && node.None? then false
      else if s.forceRefresh && node.value.created < s.created then true
      else if s.group.launchConfig.Some? then
        if instance.launchConfig.None? then true
        else !EqualFold(s.group.launchConfig.value, instance.launchConfig.value)
      else if s.group.template.Some? then
        TemplateDrifted(s.templates, s.group.template.value, instance.template)
      else if s.group.mixed.Some? then
        TemplateDrifted(s.templates, s.group.mixed.value, instance.template)
      else false
  }

  /**
   * The version the group wants: the newest of the first template of the name when it asks for the
   * latest, version 0 when there is no such template, and else the version it names.
   */
  ghost predicate IsWantedVersion(templates: seq<LaunchTemplate>, wanted: TemplateRef, version: string) {
    if Fold(wanted.version) == "$latest" then
      || (exists k :: IsFirst(templates, wanted.name, k) && version == Decimal(templates[k].latest))
      || ((forall t :: t in templates ==> !EqualFold(t.name, wanted.name)) && version == "0")
    else Fold(version) == Fold(wanted.version)
  }

  /** The instance runs the configuration the group launches from now. */
  ghost predicate RunsCurrentConfig(s: Snapshot, i: Instance) {
    && (s.group.launchConfig.Some? ==>
          i.launchConfig.Some? && Fold(i.launchConfig.value) == Fold(s.group.launchConfig.value))
    && (s.group.launchConfig.None? && (s.group.template.Some? || s.group.mixed.Some?) ==>
          var wanted := if s.group.template.Some? then s.group.template.value else s.group.mixed.value;
          && i.template.Some?
          && Fold(i.template.value.name) == Fold(wanted.name)
          && IsWantedVersion(s.templates, wanted, i.template.value.version))
  }

  /** Folding leaves digits alone and makes none. */
  lemma FoldToDigits(x: string, digits: string)
    requires AllDigits(digits)
    ensures EqualFold(x, digits) <==> x == digits
  {
    if EqualFold(x, digits) {
      assert |Fold(x)| == |x| && |Fold(digits)| == |digits|;
      forall i | 0 <= i < |x|
        ensures x[i] == digits[i]
      {
        assert Fold(x)[i] == Fold(digits)[i] && IsDigit(digits[i]);
      }
    }
  }

  /** The version the comparison is made with is the wanted one. */
  lemma ResolvesToWanted(templates: seq<LaunchTemplate>, wanted: TemplateRef, version: string)
    ensures EqualFold(version, ResolveVersion(templates, wanted)) <==> IsWantedVersion(templates, wanted, version)
  {
    assert Fold(LATEST) == "$latest";
    if Fold(wanted.version) == "$latest" {
      if exists t :: t in templates && EqualFold(t.name, wanted.name) {
        var k := SomeFirst(templates, wanted.name);
        LatestVersionOfFirst(templates, wanted.name, k);
        DecimalValue(templates[k].latest);
        FoldToDigits(version, Decimal(templates[k].latest));
      } else {
        LatestVersionOfUnknown(templates, wanted.name);
        FoldToDigits(version, "0");
      }
    }
  }

  /**
   * An instance that is staying is left alone exactly when it runs the current configuration and,
   * under a forced refresh, its node is no older than the upgrade; or when a forced refresh finds no
   * node for it, whatever configuration it runs.
   */
  lemma StayingInstanceKept(s: Snapshot, i: Instance)
    requires !i.lifecycle.Leaving()
    ensures !IsInstanceDrifted(s, i) <==>
      var node := SelectNodeByInstanceID(i.id, s.nodes);
      || (s.forceRefresh && node.None?)
      || (RunsCurrentConfig(s, i) && (s.forceRefresh ==> node.value.created >= s.created))
  {
    if i.template.Some? {
      if s.group.template.Some? {
        ResolvesToWanted(s.templates, s.group.template.value, i.template.value.version);
      }
      if s.group.mixed.Some? {
        ResolvesToWanted(s.templates, s.group.mixed.value, i.template.value.version);
      }
    }
  }

  /**
   * A group that asks for the latest version, by a launch template or a mixed-instances policy, keeps a
   * staying instance of the template exactly when it runs the newest version of the first template of
   * the name, whatever the spelling of "$Latest".
   */
  lemma LatestKept(s: Snapshot, i: Instance, wanted: TemplateRef, k: nat)
    requires !i.lifecycle.Leaving() && !s.forceRefresh && s.group.launchConfig.None?
    requires s.group.template == Some(wanted) || (s.group.template.None? && s.group.mixed == Some(wanted))
    requires Fold(wanted.version) == "$latest" && IsFirst(s.templates, wanted.name, k)
    requires i.template.Some? && EqualFold(i.template.value.name, wanted.name)
    ensures !IsInstanceDrifted(s, i) <==> i.template.value.version == Decimal(s.templates[k].latest)
  {
    StayingInstanceKept(s, i);
    FirstIsUnique(s.templates, wanted.name, k);
  }

  lemma FirstIsUnique(templates: seq<LaunchTemplate>, name: string, k: nat)
    requires IsFirst(templates, name, k)
    ensures forall j :: IsFirst(templates, name, j) ==> j == k
    ensures exists t :: t in templates && EqualFold(t.name, name)
  {
    assert templates[k] in templates;
  }

  /**
   * A forced refresh hides outdated instances: one without a node is never drifted, although it runs
   * another launch configuration than its group.
   */
  lemma ForcedRefreshSkipsNodeless()
    ensures exists s: Snapshot, i: Instance ::
      !i.lifecycle.Leaving() && !RunsCurrentConfig(s, i) && !IsInstanceDrifted(s, i)
      && IsInstanceDrifted(s.(forceRefresh := false), i)
  {
    var g := Group("g", 1, [], Some("b"), None, None);
    var i := Instance("i", InService, "z", Some("a"), None);
    var s := Snapshot(g, [], [], true, 0);
    assert Fold("a")[0] != Fold("b")[0];
    assert !IsInstanceDrifted(s, i) && IsInstanceDrifted(s.(forceRefresh := false), i);
  }

  function DriftedIds(s: Snapshot): set<InstanceId> {
    set i | i in s.group.instances && IsInstanceDrifted(s, i) :: i.id
  }

  method IsScalingGroupDrifted(s: Snapshot) returns (drifted: bool)
    ensures drifted <==> DriftedIds(s) != {}
  {
    var driftCount := 0;
    for k := 0 to |s.group.instances|
      invariant driftCount >= 0
      invariant driftCount == 0 <==> forall j :: 0 <= j < k ==> !IsInstanceDrifted(s, s.group.instances[j])
    {
      if IsInstanceDrifted(s, s.group.instances[k]) {
        driftCount := driftCount + 1;
      }
    }
    drifted := driftCount != 0;
    if drifted {
      var j :| 0 <= j < |s.group.instances| && IsInstanceDrifted(s, s.group.instances[j]);
      assert s.group.instances[j].id in DriftedIds(s);
    }
  }
}
