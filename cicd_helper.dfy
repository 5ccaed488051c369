/**
 * The GitHub Actions workflow generator: a deploy workflow per environment
 * and, for branch deployments, a destroy workflow that tears the branch's
 * stacks down again.
 *
 * projen's `GitHub` and `GithubWorkflow` are modelled only as far as the
 * generator uses them: a registry of workflows, and a workflow whose
 * triggers and jobs `on` and `addJobs` extend. The data handed to them
 * (triggers, jobs, permissions, steps) is a set of datatypes with
 * functions that build it. Step and job conditions are a small expression
 * language with the value it has for a run.
 */
module CicdHelper {
  import opened Strings

  // ---------------------------------------------------------------------
  // Workflow data
  // ---------------------------------------------------------------------

  /** The events that can start a workflow of this generator. */
  datatype EventKind = Push | WorkflowDispatch | Delete

  /** The options of a trigger: a branch filter, or none (`{}`). */
  datatype Trigger = Trigger(branches: Option<seq<string>>)

  datatype Scope = Actions | Contents | IdToken | Packages
  datatype Permission = Read | Write

  /** A condition, in the fragment of the GitHub Actions expression syntax the workflows use. */
  datatype Expr =
    | EventNameIs(eventName: string)   // github.event_name == '...'
    | RefTypeIs(refType: string)       // github.event.ref_type == '...'
    | HeadRefIsNot(headRef: string)    // github.head_ref != '...'
    | And(left: Expr, right: Expr)
    | Or(left: Expr, right: Expr)

  datatype StepAction = Uses(actionRef: string) | Run(command: string)

  /** A step: `with` inputs whose value is `undefined` are absent, as they are once serialised. */
  datatype Step = Step(name: string, id: Option<string>, cond: Option<Expr>, action: StepAction,
                       inputs: map<string, string>, env: map<string, string>)

  datatype Job = Job(name: string, cond: Option<Expr>, runsOn: seq<string>,
                     permissions: map<Scope, Permission>, steps: seq<Step>)

  // ---------------------------------------------------------------------
  // Conditions and their value
  // ---------------------------------------------------------------------

  /** What a condition reads of a run: the event, the type of a deleted ref, and the pull request's head. */
  datatype RunContext = RunContext(eventName: string, refType: Option<string>, headRef: string)

  /** GitHub compares strings without regard to case, character by character. */
  predicate SameText(a: string, b: string) {
    |a| == |b| && forall i :: 0 <= i < |a| ==> UpperChar(a[i]) == UpperChar(b[i])
  }

  /** The value of a condition for a run; a missing `ref_type` equals no string. */
  predicate Holds(e: Expr, ctx: RunContext) {
    match e
    case EventNameIs(n) => SameText(ctx.eventName, n)
    case RefTypeIs(t) => ctx.refType.Some? && SameText(ctx.refType.value, t)
    case HeadRefIsNot(r) => !SameText(ctx.headRef, r)
    case And(a, b) => Holds(a, ctx) && Holds(b, ctx)
    case Or(a, b) => Holds(a, ctx) || Holds(b, ctx)
  }

  /** A step without a condition always runs; a step whose condition is false is skipped. */
  predicate Runs(s: Step, ctx: RunContext) {
    s.cond.None? || Holds(s.cond.value, ctx)
  }

  /** The `github.event_name` of each trigger. */
  function EventName(k: EventKind): string {
    match k
    case Push => "push"
    case WorkflowDispatch => "workflow_dispatch"
    case Delete => "delete"
  }

  // ---------------------------------------------------------------------
  // Branch filters
  // ---------------------------------------------------------------------

  /**
   * A branch filter pattern against a branch name: `**` matches any run of
   * characters, `*` any run without `/`, every other character itself.
   */
  function GlobMatch(p: string, s: string): bool
    decreases |p| + |s|
  {
    if p == [] then s == []
    else if |p| >= 2 && p[0] == '*' && p[1] == '*' then
      GlobMatch(p[2..], s) || (s != [] && GlobMatch(p, s[1..]))
    else if p[0] == '*' then
      GlobMatch(p[1..], s) || (s != [] && s[0] != '/' && GlobMatch(p, s[1..]))
    else
      s != [] && s[0] == p[0] && GlobMatch(p[1..], s[1..])
  }

  predicate IsNegated(p: string) { p != [] && p[0] == '!' }

  /**
   * Whether a list of branch patterns admits a branch: the last pattern
   * that matches decides, a `!` pattern excluding and any other including;
   * a branch no pattern matches is excluded.
   */
  predicate FilterAdmits(patterns: seq<string>, branch: string)
    decreases |patterns|
  {
    if patterns == [] then false
    else
      var last := patterns[|patterns| - 1];
      if IsNegated(last) && GlobMatch(last[1..], branch) then false
      else if !IsNegated(last) && GlobMatch(last, branch) then true
      else FilterAdmits(patterns[..|patterns| - 1], branch)
  }

  /** A push to `branch` starts a workflow with these triggers. */
  predicate PushStarts(triggers: map<EventKind, Trigger>, branch: string) {
    Push in triggers && (triggers[Push].branches.None? || FilterAdmits(triggers[Push].branches.value, branch))
  }

  lemma {:induction false} GlobLiteral(p: string, s: string)
    requires '*' !in p
    ensures GlobMatch(p, s) <==> p == s
    decreases |p| + |s|
  {
    if p != [] && s != [] {
      GlobLiteral(p[1..], s[1..]);
      if p[0] == s[0] && p[1..] == s[1..] {
        assert p == [p[0]] + p[1..] && s == [s[0]] + s[1..];
      }
    }
  }

  lemma {:induction false} GlobAnything(s: string)
    ensures GlobMatch("**", s)
  {
    if s != [] {
      GlobAnything(s[1..]);
    }
  }

  lemma {:induction false} GlobStar(s: string)
    ensures GlobMatch("*", s) <==> '/' !in s
  {
    if s != [] {
      GlobStar(s[1..]);
      assert s == [s[0]] + s[1..];
    }
  }

  /** `lit*` matches the branches that start with `lit` and have no `/` after it. */
  lemma {:induction false} GlobPrefixStar(lit: string, s: string)
    requires '*' !in lit
    ensures GlobMatch(lit + "*", s) <==> IsPrefix(lit, s) && '/' !in s[|lit|..]
    decreases |lit|
  {
    if lit == [] {
      assert lit + "*" == "*" && s[|lit|..] == s;
      GlobStar(s);
    } else {
      var p := lit + "*";
      assert p[0] == lit[0] && p[1..] == lit[1..] + "*";
      if s != [] {
        GlobPrefixStar(lit[1..], s[1..]);
        if |lit| <= |s| {
          assert s[1..][|lit| - 1..] == s[|lit|..];
          assert s[..|lit|] == [s[0]] + s[1..][..|lit| - 1];
          assert lit == [lit[0]] + lit[1..];
        }
      }
    }
  }

  // ---------------------------------------------------------------------
  // getCommonWorkflowSteps
  // ---------------------------------------------------------------------

  /** `cond ? text : undefined` for a string that may be `undefined`. */
  function WhenTruthy(s: Option<string>, before: string, after: string): (r: Option<string>)
    ensures r.Some? <==> Truthy(s)
    ensures r.Some? ==> r.value == before + s.value + after
  {
    if Truthy(s) then Some(before + s.value + after) else None
  }

  /** An input whose value may be `undefined`: present exactly when it is defined. */
  function WithDefined(m: map<string, string>, key: string, v: Option<string>): (r: map<string, string>)
    ensures key in r <==> key in m || v.Some?
    ensures v.Some? ==> r[key] == v.value
    ensures forall k :: k != key ==> (k in r <==> k in m) && (k in m ==> r[k] == m[k])
  {
    if v.Some? then m[key := v.value] else m
  }

  const DeployRoleName: string := "GitHubDeployRole"

  /** The role the credentials action assumes in `account`. */
  function RoleArn(account: string): string {
    "arn:aws:iam::" + account + ":role/" + DeployRoleName
  }

  /**
   * getCommonWorkflowSteps: checkout, Node.js set-up, AWS credentials and
   * `npm ci`; the region (the CDK_DEFAULT_REGION variable of the generating
   * process) is an input.
   */
  function GetCommonWorkflowSteps(account: Option<string>, nodeVersion: Option<string>, region: Option<string>): (steps: seq<Step>)
    ensures |steps| == 4
    ensures forall k :: 0 <= k < 4 ==> steps[k].cond.None? && steps[k].id.None? && steps[k].env == map[]
  {
    [ Step("Checkout repository", None, None, Uses("actions/checkout@v4"), map[], map[]),
      Step("Setup nodejs environment", None, None, Uses("actions/setup-node@v4"),
           WithDefined(map["cache" := "npm"], "node-version", WhenTruthy(nodeVersion, ">=", "")), map[]),
      Step("Configure AWS credentials", None, None, Uses("aws-actions/configure-aws-credentials@v4"),
           WithDefined(WithDefined(map[], "role-to-assume", WhenTruthy(account, "arn:aws:iam::", ":role/" + DeployRoleName)),
                       "aws-region", region), map[]),
      Step("Install dependencies", None, None, Run("npm ci"), map[], map[]) ]
  }

  /** The common steps are always the same four actions, in this order. */
  lemma CommonStepsOrder(account: Option<string>, nodeVersion: Option<string>, region: Option<string>)
    ensures var steps := GetCommonWorkflowSteps(account, nodeVersion, region);
      && steps[0].action == Uses("actions/checkout@v4")
      && steps[1].action == Uses("actions/setup-node@v4")
      && steps[2].action == Uses("aws-actions/configure-aws-credentials@v4")
      && steps[3].action == Run("npm ci")
  {
  }

  /** The Node.js version is pinned, as a minimum, exactly when one is given. */
  lemma NodeVersionInput(account: Option<string>, nodeVersion: Option<string>, region: Option<string>)
    ensures var inputs := GetCommonWorkflowSteps(account, nodeVersion, region)[1].inputs;
      && inputs.Keys == (if Truthy(nodeVersion) then {"cache", "node-version"} else {"cache"})
      && inputs["cache"] == "npm"
      && (Truthy(nodeVersion) ==> inputs["node-version"] == ">=" + nodeVersion.value)
  {
    var inputs := GetCommonWorkflowSteps(account, nodeVersion, region)[1].inputs;
    assert "cache" != "node-version";
  }

  /** The deploy role is assumed exactly when an account is given; the region is passed exactly when it is defined. */
  lemma CredentialsInputs(account: Option<string>, nodeVersion: Option<string>, region: Option<string>)
    ensures var inputs := GetCommonWorkflowSteps(account, nodeVersion, region)[2].inputs;
      && ("role-to-assume" in inputs <==> Truthy(account))
      && (Truthy(account) ==> inputs["role-to-assume"] == RoleArn(account.value))
      && ("aws-region" in inputs <==> region.Some?)
      && (region.Some? ==> inputs["aws-region"] == region.value)
  {
    assert "role-to-assume" != "aws-region";
  }

  /** Different accounts give different roles: the account can be read back from the role. */
  lemma RoleArnInjective(a: string, b: string)
    requires RoleArn(a) == RoleArn(b)
    ensures a == b
  {
    var pre := "arn:aws:iam::";
    var post := ":role/" + DeployRoleName;
    assert RoleArn(a) == pre + a + post && RoleArn(b) == pre + b + post;
    assert |a| == |b|;
    assert a == RoleArn(a)[|pre|..|pre| + |a|];
    assert b == RoleArn(b)[|pre|..|pre| + |b|];
  }

  // ---------------------------------------------------------------------
  // The deploy workflow
  // ---------------------------------------------------------------------

  function DeployWorkflowName(env: string, deployForBranch: bool): string {
    "cdk-deploy-" + env + (if deployForBranch then "-branch" else "")
  }

  const BranchDeployPatterns: seq<string> := ["**", "!main", "!hotfix/*"]

  /** Branch mode deploys every push but to `main` and directly under `hotfix/`; otherwise pushes to `main` deploy, except in production. */
  function DeployTriggers(env: string, deployForBranch: bool): (t: map<EventKind, Trigger>)
    ensures WorkflowDispatch in t && t[WorkflowDispatch] == Trigger(None)
    ensures Delete !in t
    ensures Push in t <==> deployForBranch || env != "production"
  {
    var dispatch := map[WorkflowDispatch := Trigger(None)];
    if deployForBranch then dispatch[Push := Trigger(Some(BranchDeployPatterns))]
    else if env != "production" then dispatch[Push := Trigger(Some(["main"]))]
    else dispatch
  }

  /** The `npm run` command of a generated task: `[branch:]<env>:<action>`. */
  function TaskRun(env: string, deployForBranch: bool, action: string): string {
    if deployForBranch then "npm run branch:" + env + ":" + action else "npm run " + env + ":" + action
  }

  function DeployJob(account: string, env: string, nodeVersion: string, deployForBranch: bool, region: Option<string>): Job {
    Job("Deploy CDK stacks to " + env + " AWS account" + (if deployForBranch then " (Branch)" else ""),
        None, ["ubuntu-latest"],
        map[Actions := Write, Contents := Read, IdToken := Write],
        GetCommonWorkflowSteps(Some(account), Some(nodeVersion), region) +
        [ Step("Run CDK synth for the " + UpperCase(env) + " environment", None, None,
               Run(TaskRun(env, deployForBranch, "synth")), map[], map[]),
          Step("Deploy CDK to the " + UpperCase(env) + " environment on AWS account " + account, None, None,
               Run(TaskRun(env, deployForBranch, "deploy")), map[], map[]) ])
  }

  /** The deploy job: the common steps, then synth, then deploy, none conditional. */
  lemma DeployJobSteps(account: string, env: string, nodeVersion: string, deployForBranch: bool, region: Option<string>)
    ensures var job := DeployJob(account, env, nodeVersion, deployForBranch, region);
      && |job.steps| == 6
      && job.steps[..4] == GetCommonWorkflowSteps(Some(account), Some(nodeVersion), region)
      && job.steps[4].action == Run(TaskRun(env, deployForBranch, "synth"))
      && job.steps[5].action == Run(TaskRun(env, deployForBranch, "deploy"))
      && (forall k :: 0 <= k < 6 ==> job.steps[k].cond.None?)
      && job.cond.None?
      && job.permissions == map[Actions := Write, Contents := Read, IdToken := Write]
  {
    var job := DeployJob(account, env, nodeVersion, deployForBranch, region);
    assert job.steps[..4] == GetCommonWorkflowSteps(Some(account), Some(nodeVersion), region);
  }

  /** A branch deployment runs for every push but one to `main` or directly under `hotfix/`. */
  predicate IsFeatureBranch(branch: string) {
    branch != "main" && !(IsPrefix("hotfix/", branch) && '/' !in branch[7..])
  }

  lemma BranchPatternFacts()
    ensures BranchDeployPatterns == [BranchDeployPatterns[0], BranchDeployPatterns[1], BranchDeployPatterns[2]]
    ensures BranchDeployPatterns[0] == "**" && !IsNegated("**")
    ensures IsNegated(BranchDeployPatterns[1]) && BranchDeployPatterns[1][1..] == "main"
    ensures IsNegated(BranchDeployPatterns[2]) && BranchDeployPatterns[2][1..] == "hotfix/" + "*"
    ensures '*' !in "main" && '*' !in "hotfix/" && |"hotfix/"| == 7
  {
  }

  lemma BranchModeFilter(branch: string)
    ensures FilterAdmits(BranchDeployPatterns, branch) <==> IsFeatureBranch(branch)
  {
    BranchPatternFacts();
    GlobLiteral("main", branch);
    GlobPrefixStar("hotfix/", branch);
    GlobAnything(branch);
    var ps := BranchDeployPatterns;
    assert ps[..2][..1] == ["**"];
    assert ps[..2][1] == ps[1];
  }

  lemma MainlineFilter(branch: string)
    ensures FilterAdmits(["main"], branch) <==> branch == "main"
  {
    assert !IsNegated("main") && '*' !in "main";
    GlobLiteral("main", branch);
  }

  /**
   * Which pushes start the deploy workflow: in branch mode the feature
   * branches, otherwise `main` (and nothing in production).
   */
  lemma DeployPushes(env: string, deployForBranch: bool, branch: string)
    ensures PushStarts(DeployTriggers(env, deployForBranch), branch) <==>
      if deployForBranch then IsFeatureBranch(branch) else env != "production" && branch == "main"
  {
    if deployForBranch {
      BranchModeFilter(branch);
    } else if env != "production" {
      MainlineFilter(branch);
    }
  }

  /** No push starts both a branch deployment and a mainline deployment. */
  lemma BranchAndMainlineDeploysDisjoint(env1: string, env2: string, branch: string)
    ensures !(PushStarts(DeployTriggers(env1, true), branch) && PushStarts(DeployTriggers(env2, false), branch))
  {
    DeployPushes(env1, true, branch);
    DeployPushes(env2, false, branch);
  }

  // ---------------------------------------------------------------------
  // The destroy workflow
  // ---------------------------------------------------------------------

  function DestroyWorkflowName(env: string): string {
    "cdk-destroy-" + env + "-branch"
  }

  const DestroyTriggers: map<EventKind, Trigger> := map[WorkflowDispatch := Trigger(None), Delete := Trigger(None)]

  const DeleteOfBranch: Expr := And(RefTypeIs("branch"), EventNameIs("delete"))
  const ManualDispatch: Expr := EventNameIs("workflow_dispatch")
  const PullRequestEvent: Expr := EventNameIs("pull_request")

  /** The job guard: not the `main` head, or a branch deletion, or a manual run. */
  const DestroyGuard: Expr := Or(Or(HeadRefIsNot("main"), DeleteOfBranch), ManualDispatch)

  /** Every destroy step runs the branch destroy task of the `test` environment, whatever the workflow's environment. */
  const DestroyCommand: string := "npm run branch:test:destroy"

  const SetBranchNameId: string := "destroy-branch"
  const BranchNameOutput: string := "DESTROY_BRANCH_NAME"

  /** The step reads the branch of the delete event and writes it as a step output. */
  const SetBranchNameScript: string :=
    "BRANCH=$(cat ${{ github.event_path }} | jq --raw-output '.ref'); echo \"${{ github.repository }} has ${BRANCH} branch\"; echo \"DESTROY_BRANCH_NAME=$BRANCH\" >> $GITHUB_OUTPUT"

  /** `${{ steps.<id>.outputs.<name> }}`: an output of an earlier step. */
  function OutputRef(id: string, name: string): string {
    "${{ steps." + id + ".outputs." + name + " }}"
  }

  function DestroySteps(): (steps: seq<Step>)
    ensures |steps| == 4
  {
    [ Step("Set destroyed branch name", Some(SetBranchNameId), Some(DeleteOfBranch), Run(SetBranchNameScript), map[], map[]),
      Step("CDK destroy manually, current branch", None, Some(ManualDispatch), Run(DestroyCommand), map[],
           map["GIT_BRANCH_REF" := "${{ github.ref_name }}"]),
      Step("CDK destroy after deleting feature branch", None, Some(DeleteOfBranch), Run(DestroyCommand), map[],
           map["GIT_BRANCH_REF" := OutputRef(SetBranchNameId, BranchNameOutput)]),
      Step("CDK destroy after closing PR", None, Some(PullRequestEvent), Run(DestroyCommand), map[],
           map["GIT_BRANCH_REF" := "${{ github.head_ref }}"]) ]
  }

  /** The destroy job passes neither an account nor a Node.js version to the common steps. */
  function DestroyJob(region: Option<string>): Job {
    Job("Remove deployment of feature branch", Some(DestroyGuard), ["ubuntu-latest"],
        map[IdToken := Write, Contents := Read, Packages := Read],
        GetCommonWorkflowSteps(None, None, region) + DestroySteps())
  }

  /** The destroy job: the common steps without role or version pin, then the four destroy-side steps. */
  lemma DestroyJobShape(region: Option<string>)
    ensures var job := DestroyJob(region);
      && |job.steps| == 8
      && job.steps[..4] == GetCommonWorkflowSteps(None, None, region)
      && job.steps[4..] == DestroySteps()
      && "role-to-assume" !in job.steps[2].inputs && "node-version" !in job.steps[1].inputs
      && (forall k :: 5 <= k < 8 ==> job.steps[k].action == Run(DestroyCommand))
      && job.permissions == map[IdToken := Write, Contents := Read, Packages := Read]
  {
    NodeVersionInput(None, None, region);
    CredentialsInputs(None, None, region);
    var job := DestroyJob(region);
    assert job.steps[4..] == DestroySteps();
  }

  lemma DestroyConditions()
    ensures var s := DestroySteps();
      && s[0].cond == Some(DeleteOfBranch) && s[1].cond == Some(ManualDispatch)
      && s[2].cond == Some(DeleteOfBranch) && s[3].cond == Some(PullRequestEvent)
  {
  }

  /** What the conditions mean for a run. */
  lemma ConditionValues(ctx: RunContext)
    ensures Holds(DeleteOfBranch, ctx) <==>
      ctx.refType.Some? && SameText(ctx.refType.value, "branch") && SameText(ctx.eventName, "delete")
    ensures Holds(ManualDispatch, ctx) <==> SameText(ctx.eventName, "workflow_dispatch")
    ensures Holds(PullRequestEvent, ctx) <==> SameText(ctx.eventName, "pull_request")
    ensures Holds(DestroyGuard, ctx) <==>
      !SameText(ctx.headRef, "main") || Holds(DeleteOfBranch, ctx) || Holds(ManualDispatch, ctx)
  {
    assert Holds(DeleteOfBranch, ctx) <==> Holds(RefTypeIs("branch"), ctx) && Holds(EventNameIs("delete"), ctx);
    assert Holds(DestroyGuard, ctx) <==> Holds(Or(HeadRefIsNot("main"), DeleteOfBranch), ctx) || Holds(ManualDispatch, ctx);
    assert Holds(Or(HeadRefIsNot("main"), DeleteOfBranch), ctx) <==> Holds(HeadRefIsNot("main"), ctx) || Holds(DeleteOfBranch, ctx);
  }

  lemma EventNameLengths()
    ensures |"workflow_dispatch"| == 17 && |"delete"| == 6 && |"pull_request"| == 12
  {
  }

  lemma SameTextRefl(a: string)
    ensures SameText(a, a)
  {
  }

  /** At most one of the three destroy steps runs, for any run. */
  lemma DestroyStepsExclusive(ctx: RunContext)
    ensures var s := DestroySteps();
      && !(Runs(s[1], ctx) && Runs(s[2], ctx))
      && !(Runs(s[1], ctx) && Runs(s[3], ctx))
      && !(Runs(s[2], ctx) && Runs(s[3], ctx))
  {
    DestroyConditions();
    EventNameLengths();
    ConditionValues(ctx);
  }

  /**
   * The runs the triggers can start: a manual run destroys through the
   * manual step; a branch deletion names the branch and destroys through
   * the after-delete step; the pull request step never runs.
   */
  lemma DestroyStepsOnTriggers(k: EventKind, refType: Option<string>, headRef: string)
    requires k in DestroyTriggers
    ensures var s := DestroySteps(); var ctx := RunContext(EventName(k), refType, headRef);
      && !Runs(s[3], ctx)
      && (Runs(s[1], ctx) <==> k == WorkflowDispatch)
      && (Runs(s[2], ctx) <==> k == Delete && refType.Some? && SameText(refType.value, "branch"))
      && (Runs(s[0], ctx) <==> Runs(s[2], ctx))
  {
    DestroyConditions();
    EventNameLengths();
    SameTextRefl(EventName(k));
    ConditionValues(RunContext(EventName(k), refType, headRef));
  }

  /** The job guard never holds back a destroy by the manual or the after-delete step. */
  lemma GuardAdmitsDestroys(ctx: RunContext)
    ensures var s := DestroySteps(); Runs(s[1], ctx) || Runs(s[2], ctx) ==> Holds(DestroyGuard, ctx)
  {
    DestroyConditions();
    ConditionValues(ctx);
  }

  /** A pull request step that gets past the guard never runs for the `main` head. */
  lemma GuardSparesMainPullRequests(ctx: RunContext)
    requires Holds(DestroyGuard, ctx) && Runs(DestroySteps()[3], ctx)
    ensures !SameText(ctx.headRef, "main")
  {
    DestroyConditions();
    EventNameLengths();
    ConditionValues(ctx);
  }

  /**
   * The branch-name output is written before it is read: the step with
   * id `destroy-branch` precedes the step that reads its output, and runs
   * whenever that step runs.
   */
  lemma BranchNameWrittenBeforeRead(ctx: RunContext)
    ensures var s := DestroySteps();
      && s[0].id == Some(SetBranchNameId)
      && s[2].env["GIT_BRANCH_REF"] == OutputRef(SetBranchNameId, BranchNameOutput)
      && (Runs(s[2], ctx) ==> Runs(s[0], ctx))
  {
  }

  // ---------------------------------------------------------------------
  // Names
  // ---------------------------------------------------------------------

  /** A deploy and a destroy workflow never share a name. */
  lemma DeployAndDestroyNamesDiffer(env1: string, deployForBranch: bool, env2: string)
    ensures DeployWorkflowName(env1, deployForBranch) != DestroyWorkflowName(env2)
  {
    var d := DeployWorkflowName(env1, deployForBranch);
    var e := DestroyWorkflowName(env2);
    assert d[..7] == "cdk-dep" by { assert d == "cdk-deploy-" + (env1 + (if deployForBranch then "-branch" else "")); }
    assert e[..7] == "cdk-des" by { assert e == "cdk-destroy-" + (env2 + "-branch"); }
  }

  /** In one mode, different environments give different deploy workflows. */
  lemma DeployNameInjective(env1: string, env2: string, deployForBranch: bool)
    requires DeployWorkflowName(env1, deployForBranch) == DeployWorkflowName(env2, deployForBranch)
    ensures env1 == env2
  {
    var pre := "cdk-deploy-";
    var post := if deployForBranch then "-branch" else "";
    assert DeployWorkflowName(env1, deployForBranch) == pre + env1 + post;
    assert DeployWorkflowName(env2, deployForBranch) == pre + env2 + post;
    assert env1 == DeployWorkflowName(env1, deployForBranch)[|pre|..|pre| + |env1|];
    assert env2 == DeployWorkflowName(env2, deployForBranch)[|pre|..|pre| + |env2|];
  }

  /** Across modes the names can collide: the mainline workflow of `E-branch` is the branch workflow of `E`. */
  lemma DeployNamesCollideAcrossModes(env: string)
    ensures DeployWorkflowName(env + "-branch", false) == DeployWorkflowName(env, true)
  {
    assert "cdk-deploy-" + (env + "-branch") + "" == "cdk-deploy-" + env + "-branch";
  }

  lemma DestroyNameInjective(env1: string, env2: string)
    requires DestroyWorkflowName(env1) == DestroyWorkflowName(env2)
    ensures env1 == env2
  {
    var pre := "cdk-destroy-";
    assert env1 == DestroyWorkflowName(env1)[|pre|..|pre| + |env1|];
    assert env2 == DestroyWorkflowName(env2)[|pre|..|pre| + |env2|];
  }

  // ---------------------------------------------------------------------
  // projen's GitHub and GithubWorkflow, and the builders
  // ---------------------------------------------------------------------

  /** The workflows registered on a project's GitHub component, in creation order. */
  class GitHub {
    var workflows: seq<GithubWorkflow>

    constructor ()
      ensures workflows == []
    {
      workflows := [];
    }
  }

  class GithubWorkflow {
    var name: string
    var triggers: map<EventKind, Trigger>
    var jobs: map<string, Job>

    /** `new GithubWorkflow(gh, name)`: an empty workflow, registered on `gh`. */
    constructor (gh: GitHub, name: string)
      modifies gh
      ensures this.name == name && triggers == map[] && jobs == map[]
      ensures gh.workflows == old(gh.workflows) + [this]
    {
      this.name := name;
      triggers := map[];
      jobs := map[];
      new;
      gh.workflows := gh.workflows + [this];
    }

    /** `on(events)`: the given triggers are added, replacing any of the same kind. */
    method On(events: map<EventKind, Trigger>)
      modifies this
      ensures triggers == old(triggers) + events
      ensures name == old(name) && jobs == old(jobs)
    {
      triggers := triggers + events;
    }

    /** `addJobs(jobs)`: the given jobs are added, replacing any of the same id. */
    method AddJobs(newJobs: map<string, Job>)
      modifies this
      ensures jobs == old(jobs) + newJobs
      ensures name == old(name) && triggers == old(triggers)
    {
      jobs := jobs + newJobs;
    }
  }

  predicate IsDeployWorkflow(w: GithubWorkflow, account: string, env: string, nodeVersion: string,
                             deployForBranch: bool, region: Option<string>)
    reads w
  {
    && w.name == DeployWorkflowName(env, deployForBranch)
    && w.triggers == DeployTriggers(env, deployForBranch)
    && w.jobs == map["deploy" := DeployJob(account, env, nodeVersion, deployForBranch, region)]
  }

  predicate IsDestroyWorkflow(w: GithubWorkflow, env: string, region: Option<string>)
    reads w
  {
    && w.name == DestroyWorkflowName(env)
    && w.triggers == DestroyTriggers
    && w.jobs == map["destroy" := DestroyJob(region)]
  }

  /** createCdkDeploymentWorkflow: one new workflow on `gh`, holding the deploy job. */
  method CreateCdkDeploymentWorkflow(gh: GitHub, account: string, env: string, nodeVersion: string,
                                     deployForBranch: bool, region: Option<string>)
    returns (w: GithubWorkflow)
    modifies gh
    ensures fresh(w) && gh.workflows == old(gh.workflows) + [w]
    ensures IsDeployWorkflow(w, account, env, nodeVersion, deployForBranch, region)
  {
    w := new GithubWorkflow(gh, DeployWorkflowName(env, deployForBranch));
    w.On(DeployTriggers(env, deployForBranch));
    w.AddJobs(map["deploy" := DeployJob(account, env, nodeVersion, deployForBranch, region)]);
  }

  /** createCdkDestroyWorkflow: one new workflow on `gh`, holding the destroy job. */
  method CreateCdkDestroyWorkflow(gh: GitHub, env: string, region: Option<string>) returns (w: GithubWorkflow)
    modifies gh
    ensures fresh(w) && gh.workflows == old(gh.workflows) + [w]
    ensures IsDestroyWorkflow(w, env, region)
  {
    w := new GithubWorkflow(gh, DestroyWorkflowName(env));
    w.On(DestroyTriggers);
    w.AddJobs(map["destroy" := DestroyJob(region)]);
  }

  /**
   * createCdkDeploymentWorkflows: the deploy workflow always, the destroy
   * workflow exactly in branch mode, appended in that order.
   */
  method CreateCdkDeploymentWorkflows(gh: GitHub, account: string, env: string, nodeVersion: string,
                                      deployForBranch: bool, region: Option<string>)
    modifies gh
    ensures |gh.workflows| == |old(gh.workflows)| + (if deployForBranch then 2 else 1)
    ensures gh.workflows[..|old(gh.workflows)|] == old(gh.workflows)
    ensures fresh(gh.workflows[|old(gh.workflows)|])
    ensures IsDeployWorkflow(gh.workflows[|old(gh.workflows)|], account, env, nodeVersion, deployForBranch, region)
    ensures deployForBranch ==> fresh(gh.workflows[|old(gh.workflows)| + 1])
    ensures deployForBranch ==> IsDestroyWorkflow(gh.workflows[|old(gh.workflows)| + 1], env, region)
  {
    var deploy := CreateCdkDeploymentWorkflow(gh, account, env, nodeVersion, deployForBranch, region);
    if deployForBranch {
      var destroy := CreateCdkDestroyWorkflow(gh, env, region);
    }
  }
}
