// Permission resource definitions: the actions of one scope grouped by the
// resource they act on, filtered by environment type, and listed in the
// fixed order of the scope's resources.

module Resource {
  import opened Common

  /** The scope asked for; anything else than system or project is kept as given. */
  datatype Scope = SystemScope | ProjectScope | OtherScope(raw: string)

  /** The environment type asked for: none (the empty string), the PM deploy type, or any other one. */
  datatype EnvType = NoEnvType | PMEnv | OtherEnv(raw: string)

  /** An action as the action table stores it. */
  datatype ActionRow = ActionRow(resource: string, action: string, name: string)

  /** A rule of a resource definition: the action's verb and its display name. */
  datatype Rule = Rule(action: string, alias: string)

  datatype ResourceDefinition = ResourceDefinition(resource: string, alias: string, rules: seq<Rule>)

  /** The verbs the environment-type filter looks at. */
  const VerbDebugEnvironmentPod := "debug_pod"
  const VerbDebugProductionEnvPod := "production:debug_pod"
  const VerbEnvironmentSSHPM := "ssh_pm"

  const SystemAliases: map<string, string> := map[
    "Project" := "项目",
    "Template" := "模板库",
    "ReleasePlan" := "发布计划",
    "QualityCenter" := "质量中心",
    "ArtifactManagement" := "制品管理",
    "BusinessDirectory" := "业务目录",
    "DataCenter" := "数据视图",
    "ClusterManagement" := "集群管理",
    "VMManagement" := "主机管理",
    "RegistryManagement" := "镜像仓库",
    "S3StorageManagement" := "对象存储",
    "HelmRepoManagement" := "Chart 仓库",
    "DBInstanceManagement" := "数据库"]

  const SystemSequence: seq<string> := [
    "Project", "ReleasePlan", "Template", "QualityCenter", "ArtifactManagement",
    "BusinessDirectory", "DataCenter", "ClusterManagement", "VMManagement",
    "RegistryManagement", "S3StorageManagement", "HelmRepoManagement", "DBInstanceManagement"]

  const ProjectAliases: map<string, string> := map[
    "Workflow" := "工作流",
    "Environment" := "测试环境",
    "ProductionEnvironment" := "生产环境",
    "Service" := "测试服务",
    "ProductionService" := "生产服务",
    "Build" := "构建",
    "Test" := "测试",
    "Scan" := "代码扫描",
    "Delivery" := "版本管理"]

  const ProjectSequence: seq<string> := [
    "Workflow", "Environment", "ProductionEnvironment", "Service", "ProductionService",
    "Build", "Test", "Scan", "Delivery"]

  /** A missing key of a table reads as the empty string. */
  function Lookup(m: map<string, string>, k: string): string
  {
    if k in m then m[k] else ""
  }

  /** The alias of a resource: from the system table in system scope, from the project table otherwise. */
  function Alias(scope: Scope, resource: string): string
  {
    if scope == SystemScope then Lookup(SystemAliases, resource) else Lookup(ProjectAliases, resource)
  }

  /**
   * Whether an action survives the environment-type filter: PM drops the two
   * pod-debugging verbs, any other type drops the SSH verb, and no type
   * drops nothing.
   */
  predicate Kept(envType: EnvType, verb: string)
  {
    match envType
    case PMEnv => verb != VerbDebugEnvironmentPod && verb != VerbDebugProductionEnvPod
    case OtherEnv(_) => verb != VerbEnvironmentSSHPM
    case NoEnvType => true
  }

  /** One action's effect: its resource's definition is made if missing, and gets the action's rule if it survives the filter. */
  function AddAction(prev: map<string, ResourceDefinition>, a: ActionRow, scope: Scope, envType: EnvType)
    : map<string, ResourceDefinition>
  {
    var m := if a.resource in prev then prev
             else prev[a.resource := ResourceDefinition(a.resource, Alias(scope, a.resource), [])];
    if Kept(envType, a.action) then m[a.resource := m[a.resource].(rules := m[a.resource].rules + [Rule(a.action, a.name)])]
    else m
  }

  /** The definitions after the actions, in order: a resource's definition is made on its first action, filtered or not. */
  function Definitions(actions: seq<ActionRow>, scope: Scope, envType: EnvType): map<string, ResourceDefinition>
  {
    if |actions| == 0 then map[]
    else AddAction(Definitions(actions[..|actions| - 1], scope, envType), actions[|actions| - 1], scope, envType)
  }

  lemma DefinitionsSnoc(actions: seq<ActionRow>, i: nat, scope: Scope, envType: EnvType)
    requires i < |actions|
    ensures Definitions(actions[..i + 1], scope, envType)
         == AddAction(Definitions(actions[..i], scope, envType), actions[i], scope, envType)
  {
    assert actions[..i + 1][..i] == actions[..i];
  }

  /** The rule an action contributes to the definition of `res`, if any. */
  function RuleFor(res: string, envType: EnvType): ActionRow -> Option<Rule>
  {
    (a: ActionRow) => if a.resource == res && Kept(envType, a.action) then Some(Rule(a.action, a.name)) else None
  }

  /** The resources some action acts on. */
  function Resources(actions: seq<ActionRow>): set<string>
  {
    set a | a in actions :: a.resource
  }

  /** The definition a resource gets from the actions, stated independently of their processing. */
  predicate GroupedFrom(d: ResourceDefinition, res: string, actions: seq<ActionRow>, scope: Scope, envType: EnvType)
  {
    d == ResourceDefinition(res, Alias(scope, res), FilterMap(actions, RuleFor(res, envType)))
  }

  /**
   * One action's effect: its resource gains a definition if it had none,
   * that definition gets the action's rule if it survives the filter, and
   * the other definitions are untouched.
   */
  lemma AddActionEffect(prev: map<string, ResourceDefinition>, a: ActionRow, scope: Scope, envType: EnvType)
    ensures var m := AddAction(prev, a, scope, envType);
      var base := if a.resource in prev then prev[a.resource]
                  else ResourceDefinition(a.resource, Alias(scope, a.resource), []);
      m.Keys == prev.Keys + {a.resource}
      && m[a.resource] == base.(rules := base.rules + (if Kept(envType, a.action) then [Rule(a.action, a.name)] else []))
      && forall r :: r in prev && r != a.resource ==> m[r] == prev[r]
  {
  }

  /** The definitions after one more action. */
  lemma DefinitionsLast(actions: seq<ActionRow>, scope: Scope, envType: EnvType)
    requires |actions| > 0
    ensures Definitions(actions, scope, envType)
         == AddAction(Definitions(actions[..|actions| - 1], scope, envType), actions[|actions| - 1], scope, envType)
  {
  }

  /** There is a definition exactly for each resource some action acts on. */
  lemma {:induction false} DefinitionsKeys(actions: seq<ActionRow>, scope: Scope, envType: EnvType)
    ensures Definitions(actions, scope, envType).Keys == Resources(actions)
    decreases |actions|
  {
    if |actions| > 0 {
      var init := actions[..|actions| - 1];
      DefinitionsKeys(init, scope, envType);
      DefinitionsLast(actions, scope, envType);
      AddActionEffect(Definitions(init, scope, envType), actions[|actions| - 1], scope, envType);
      assert actions == init + [actions[|actions| - 1]];
      assert Resources(actions) == Resources(init) + {actions[|actions| - 1].resource};
    }
  }

  /** The rules of the resource of the last action: the earlier ones, then its own if it survives the filter. */
  lemma DefinitionsGroupLast(actions: seq<ActionRow>, scope: Scope, envType: EnvType)
    requires |actions| > 0
    requires var init := actions[..|actions| - 1]; var res := actions[|actions| - 1].resource;
      Definitions(init, scope, envType).Keys == Resources(init)
      && (res in Definitions(init, scope, envType) ==>
            GroupedFrom(Definitions(init, scope, envType)[res], res, init, scope, envType))
    ensures var res := actions[|actions| - 1].resource;
      res in Definitions(actions, scope, envType)
      && GroupedFrom(Definitions(actions, scope, envType)[res], res, actions, scope, envType)
  {
    var n := |actions| - 1;
    var init := actions[..n];
    var a := actions[n];
    var res := a.resource;
    var f := RuleFor(res, envType);
    var prev := Definitions(init, scope, envType);
    DefinitionsLast(actions, scope, envType);
    AddActionEffect(prev, a, scope, envType);
    FilterMapSnoc(actions, n, f);
    assert actions[..n + 1] == actions;
    assert f(a) == if Kept(envType, a.action) then Some(Rule(a.action, a.name)) else None;
    if res !in prev {
      forall i | 0 <= i < |init| ensures f(init[i]).None? {
        assert init[i] in init;
      }
      FilterMapNone(init, f);
    }
  }

  /** The definitions of the other resources are unchanged by the last action, and so are their rules. */
  lemma DefinitionsGroupOther(actions: seq<ActionRow>, scope: Scope, envType: EnvType, res: string)
    requires |actions| > 0 && res != actions[|actions| - 1].resource
    requires var init := actions[..|actions| - 1];
      res in Definitions(init, scope, envType) ==>
        GroupedFrom(Definitions(init, scope, envType)[res], res, init, scope, envType)
    requires res in Definitions(actions, scope, envType)
    ensures GroupedFrom(Definitions(actions, scope, envType)[res], res, actions, scope, envType)
  {
    var n := |actions| - 1;
    var f := RuleFor(res, envType);
    DefinitionsLast(actions, scope, envType);
    AddActionEffect(Definitions(actions[..n], scope, envType), actions[n], scope, envType);
    FilterMapSnoc(actions, n, f);
    assert f(actions[n]) == None;
    assert actions[..n + 1] == actions;
  }

  /**
   * Grouping: there is a definition exactly for each resource some action
   * acts on, and its rules are that resource's surviving actions, in input
   * order; a resource whose actions were all filtered keeps an empty list.
   */
  lemma {:induction false} DefinitionsGroup(actions: seq<ActionRow>, scope: Scope, envType: EnvType)
    ensures Definitions(actions, scope, envType).Keys == Resources(actions)
    ensures forall res :: res in Definitions(actions, scope, envType) ==>
      GroupedFrom(Definitions(actions, scope, envType)[res], res, actions, scope, envType)
    decreases |actions|
  {
    DefinitionsKeys(actions, scope, envType);
    if |actions| > 0 {
      var init := actions[..|actions| - 1];
      DefinitionsGroup(init, scope, envType);
      DefinitionsGroupLast(actions, scope, envType);
      forall res | res in Definitions(actions, scope, envType) && res != actions[|actions| - 1].resource
        ensures GroupedFrom(Definitions(actions, scope, envType)[res], res, actions, scope, envType)
      {
        DefinitionsGroupOther(actions, scope, envType, res);
      }
    }
  }

  /** The resources listed, in order: the project sequence (without the production ones under PM) in project scope, the system sequence otherwise. */
  function Order(scope: Scope, envType: EnvType): seq<string>
  {
    if scope == ProjectScope then Skipping(ProjectSequence, envType) else SystemSequence
  }

  /** Under PM the production resources are not listed. */
  predicate Skipped(envType: EnvType, res: string)
  {
    envType == PMEnv && (res == "ProductionEnvironment" || res == "ProductionService")
  }

  /** A sequence without the production resources under PM. */
  function Skipping(s: seq<string>, envType: EnvType): seq<string>
  {
    if |s| == 0 then []
    else Skipping(s[..|s| - 1], envType) + (if Skipped(envType, s[|s| - 1]) then [] else [s[|s| - 1]])
  }

  lemma SkippingSnoc(s: seq<string>, i: nat, envType: EnvType)
    requires i < |s|
    ensures Skipping(s[..i + 1], envType) == Skipping(s[..i], envType) + (if Skipped(envType, s[i]) then [] else [s[i]])
  {
    assert s[..i + 1][..i] == s[..i];
  }

  /** Without PM nothing is skipped. */
  lemma {:induction false} SkippingNothing(s: seq<string>, envType: EnvType)
    requires envType != PMEnv
    ensures Skipping(s, envType) == s
    decreases |s|
  {
    if |s| > 0 {
      SkippingNothing(s[..|s| - 1], envType);
      assert s == s[..|s| - 1] + [s[|s| - 1]];
    }
  }

  lemma ProjectSkippingUpTo3()
    ensures Skipping(ProjectSequence[..3], PMEnv) == ["Workflow", "Environment"]
  {
    var p := ProjectSequence;
    assert p[..0] == [];
    SkippingSnoc(p, 0, PMEnv);
    assert !Skipped(PMEnv, p[0]);
    assert Skipping(p[..1], PMEnv) == ["Workflow"];
    SkippingSnoc(p, 1, PMEnv);
    assert !Skipped(PMEnv, p[1]);
    assert Skipping(p[..2], PMEnv) == ["Workflow", "Environment"];
    SkippingSnoc(p, 2, PMEnv);
    assert Skipped(PMEnv, p[2]);
  }

  lemma ProjectSkippingUpTo6()
    ensures Skipping(ProjectSequence[..6], PMEnv) == ["Workflow", "Environment", "Service", "Build"]
  {
    var p := ProjectSequence;
    ProjectSkippingUpTo3();
    SkippingSnoc(p, 3, PMEnv);
    assert !Skipped(PMEnv, p[3]);
    assert Skipping(p[..4], PMEnv) == ["Workflow", "Environment", "Service"];
    SkippingSnoc(p, 4, PMEnv);
    assert Skipped(PMEnv, p[4]);
    assert Skipping(p[..5], PMEnv) == ["Workflow", "Environment", "Service"];
    SkippingSnoc(p, 5, PMEnv);
    assert !Skipped(PMEnv, p[5]);
  }

  /** Under PM the project listing has the seven non-production resources, in their order. */
  lemma OrderUnderPM()
    ensures Order(ProjectScope, PMEnv) == ["Workflow", "Environment", "Service", "Build", "Test", "Scan", "Delivery"]
  {
    var p := ProjectSequence;
    ProjectSkippingUpTo6();
    SkippingSnoc(p, 6, PMEnv);
    assert !Skipped(PMEnv, p[6]);
    assert Skipping(p[..7], PMEnv) == ["Workflow", "Environment", "Service", "Build", "Test"];
    SkippingSnoc(p, 7, PMEnv);
    assert !Skipped(PMEnv, p[7]);
    assert Skipping(p[..8], PMEnv) == ["Workflow", "Environment", "Service", "Build", "Test", "Scan"];
    SkippingSnoc(p, 8, PMEnv);
    assert !Skipped(PMEnv, p[8]);
    assert p[..9] == p;
  }

  /** Under any other environment type the project listing has all nine resources; other scopes list the system ones. */
  lemma OrderOtherwise(scope: Scope, envType: EnvType)
    ensures scope == ProjectScope && envType != PMEnv ==> Order(scope, envType) == ProjectSequence
    ensures scope != ProjectScope ==> Order(scope, envType) == SystemSequence
  {
    if scope == ProjectScope && envType != PMEnv {
      SkippingNothing(ProjectSequence, envType);
    }
  }

  /** The entry for a listed resource: its definition, or nothing when no action acts on it. */
  function Entry(defs: map<string, ResourceDefinition>, res: string): Option<ResourceDefinition>
  {
    if res in defs then Some(defs[res]) else None
  }

  /** The listing: one entry per resource of the order. */
  function Listing(defs: map<string, ResourceDefinition>, order: seq<string>): (r: seq<Option<ResourceDefinition>>)
    ensures |r| == |order|
    ensures forall i :: 0 <= i < |order| ==> r[i] == Entry(defs, order[i])
  {
    if |order| == 0 then []
    else Listing(defs, order[..|order| - 1]) + [Entry(defs, order[|order| - 1])]
  }

  lemma ListingSnoc(defs: map<string, ResourceDefinition>, order: seq<string>, res: string)
    ensures Listing(defs, order + [res]) == Listing(defs, order) + [Entry(defs, res)]
  {
    assert (order + [res])[..|order|] == order;
  }

  /**
   * Listing the definitions: entry i is empty exactly when no action acts on
   * the i-th resource of the order, and otherwise is that resource's grouped
   * definition; resources outside the order are not listed.
   */
  lemma ListingEntries(actions: seq<ActionRow>, scope: Scope, envType: EnvType)
    ensures var order := Order(scope, envType);
      var r := Listing(Definitions(actions, scope, envType), order);
      |r| == |order|
      && forall i :: 0 <= i < |order| ==>
           (r[i].None? <==> order[i] !in Resources(actions))
           && (r[i].Some? ==> GroupedFrom(r[i].value, order[i], actions, scope, envType))
  {
    DefinitionsGroup(actions, scope, envType);
  }

  const ListErrorPrefix := "failed to list action with type: "
  const ListErrorMiddle := ", error: "

  /** The scope's name in the error message. */
  function ScopeName(scope: Scope): string
  {
    match scope
    case SystemScope => "system"
    case ProjectScope => "project"
    case OtherScope(raw) => raw
  }

  /**
   * GetResourceActionDefinitions: `listed` is the action table's answer for
   * the scope. A failed listing is reported; otherwise the actions are
   * grouped into definitions and listed in the scope's order.
   */
  method GetResourceActionDefinitions(scope: Scope, envType: EnvType, listed: Result<seq<ActionRow>>)
    returns (r: Result<seq<Option<ResourceDefinition>>>)
    ensures listed.Err? ==> r == Err(ListErrorPrefix + ScopeName(scope) + ListErrorMiddle + listed.msg)
    ensures listed.Ok? ==> r == Ok(Listing(Definitions(listed.value, scope, envType), Order(scope, envType)))
  {
    if listed.Err? {
      return Err(ListErrorPrefix + ScopeName(scope) + ListErrorMiddle + listed.msg);
    }
    var resourceMap := GroupActions(listed.value, scope, envType);
    var resp := ListInOrder(resourceMap, scope, envType);
    return Ok(resp);
  }

  /** Group the actions by resource, in order, dropping the rules the environment type filters out. */
  method GroupActions(actions: seq<ActionRow>, scope: Scope, envType: EnvType)
    returns (resourceMap: map<string, ResourceDefinition>)
    ensures resourceMap == Definitions(actions, scope, envType)
  {
    resourceMap := map[];
    for i := 0 to |actions|
      invariant resourceMap == Definitions(actions[..i], scope, envType)
    {
      DefinitionsSnoc(actions, i, scope, envType);
      resourceMap := GroupAction(resourceMap, actions[i], scope, envType);
    }
    assert actions[..|actions|] == actions;
  }

  /** File one action: make its resource's definition if missing, then add its rule unless filtered out. */
  method GroupAction(resourceMap: map<string, ResourceDefinition>, action: ActionRow, scope: Scope, envType: EnvType)
    returns (m: map<string, ResourceDefinition>)
    ensures m == AddAction(resourceMap, action, scope, envType)
  {
    m := resourceMap;
    if action.resource !in m {
      var alias := Lookup(ProjectAliases, action.resource);
      if scope == SystemScope {
        alias := Lookup(SystemAliases, action.resource);
      }
      m := m[action.resource := ResourceDefinition(action.resource, alias, [])];
    }
    if envType == PMEnv {
      if action.action == VerbDebugEnvironmentPod || action.action == VerbDebugProductionEnvPod {
        return;
      }
    } else if envType != NoEnvType {
      if action.action == VerbEnvironmentSSHPM {
        return;
      }
    }
    var d := m[action.resource];
    m := m[action.resource := d.(rules := d.rules + [Rule(action.action, action.name)])];
  }

  /** List the definitions in the scope's order. */
  method ListInOrder(resourceMap: map<string, ResourceDefinition>, scope: Scope, envType: EnvType)
    returns (resp: seq<Option<ResourceDefinition>>)
    ensures resp == Listing(resourceMap, Order(scope, envType))
  {
    if scope == ProjectScope {
      resp := ListSkipping(resourceMap, ProjectSequence, envType);
    } else {
      resp := ListSkipping(resourceMap, SystemSequence, NoEnvType);
      SkippingNothing(SystemSequence, NoEnvType);
    }
  }

  /** List the resources of `order`, skipping the production ones under PM. */
  method ListSkipping(resourceMap: map<string, ResourceDefinition>, order: seq<string>, envType: EnvType)
    returns (resp: seq<Option<ResourceDefinition>>)
    ensures resp == Listing(resourceMap, Skipping(order, envType))
  {
    resp := [];
    for i := 0 to |order|
      invariant resp == Listing(resourceMap, Skipping(order[..i], envType))
    {
      SkippingSnoc(order, i, envType);
      var resource := order[i];
      if !Skipped(envType, resource) {
        ListingSnoc(resourceMap, Skipping(order[..i], envType), resource);
        resp := resp + [Entry(resourceMap, resource)];
      } else {
        assert Skipping(order[..i + 1], envType) == Skipping(order[..i], envType);
      }
    }
    assert order[..|order|] == order;
  }

  /**
   * The filter in both directions: under PM exactly the two pod-debugging
   * verbs are dropped, under another type exactly the SSH verb, and with no
   * type nothing.
   */
  lemma KeptCases(envType: EnvType, verb: string)
    ensures envType == PMEnv ==>
      (!Kept(envType, verb) <==> verb == VerbDebugEnvironmentPod || verb == VerbDebugProductionEnvPod)
    ensures envType.OtherEnv? ==> (!Kept(envType, verb) <==> verb == VerbEnvironmentSSHPM)
    ensures envType == NoEnvType ==> Kept(envType, verb)
  {
  }
}
