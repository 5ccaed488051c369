/**
 * The environment helpers of the CDK project generator: the branch-reference
 * normaliser, the resource-name resolver and the generator of the four
 * per-environment CDK tasks.
 *
 * The `process.env` reads of `generateUniqueResourceName` (`GIT_BRANCH_REF`,
 * `ENVIRONMENT`) are parameters here.
 */
module EnvHelper {
  import opened Strings

  // ---------------------------------------------------------------------
  // Release-tag test: the regular expression  v\d+\.\d+\.\d+$
  // ---------------------------------------------------------------------

  predicate AllDigits(s: string) {
    forall i :: 0 <= i < |s| ==> IsDigit(s[i])
  }

  /** Length of the longest run of digits at the end of `s`. */
  function TrailingDigits(s: string): (n: nat)
    ensures n <= |s|
    ensures forall i :: |s| - n <= i < |s| ==> IsDigit(s[i])
    ensures n < |s| ==> !IsDigit(s[|s| - n - 1])
  {
    if s == [] || !IsDigit(s[|s| - 1]) then 0 else 1 + TrailingDigits(s[..|s| - 1])
  }

  /**
   * Matches `c\d+$` at the end of `s` and returns what precedes `c`, or
   * `None` when `s` does not end that way.
   */
  function StripDigitsAfter(s: string, c: char): (r: Option<string>)
    ensures r.Some? ==> |r.value| < |s| && IsPrefix(r.value, s) && s[|r.value|] == c
                        && |r.value| + 1 < |s| && AllDigits(s[|r.value| + 1..])
  {
    var n := TrailingDigits(s);
    if 0 < n && n < |s| && s[|s| - n - 1] == c then Some(s[..|s| - n - 1]) else None
  }

  /** `/v\d+\.\d+\.\d+$/.test(s)`, scanning from the end. */
  predicate EndsWithVersionTag(s: string) {
    match StripDigitsAfter(s, '.')
    case None => false
    case Some(s2) =>
      match StripDigitsAfter(s2, '.')
      case None => false
      case Some(s1) => StripDigitsAfter(s1, 'v').Some?
  }

  lemma StripDigitsAfterOf(rest: string, c: char, d: string)
    requires !IsDigit(c) && d != [] && AllDigits(d)
    ensures StripDigitsAfter(rest + [c] + d, c) == Some(rest)
  {
    var s := rest + [c] + d;
    var n := TrailingDigits(s);
    assert s[|s| - |d| - 1] == c;
    assert forall i :: |s| - |d| <= i < |s| ==> s[i] == d[i - |s| + |d|];
    assert n == |d|;
    assert s[..|s| - n - 1] == rest;
  }

  /** Every string that ends in `v<digits>.<digits>.<digits>` passes the tag test. */
  lemma VersionTagComplete(pre: string, major: string, minor: string, patch: string)
    requires major != [] && minor != [] && patch != []
    requires AllDigits(major) && AllDigits(minor) && AllDigits(patch)
    ensures EndsWithVersionTag(pre + "v" + major + "." + minor + "." + patch)
  {
    var s1 := pre + "v" + major;
    var s2 := s1 + "." + minor;
    StripDigitsAfterOf(s2, '.', patch);
    assert s2 + "." + patch == s2 + ['.'] + patch;
    StripDigitsAfterOf(s1, '.', minor);
    assert s1 + "." + minor == s1 + ['.'] + minor;
    StripDigitsAfterOf(pre, 'v', major);
    assert pre + "v" + major == pre + ['v'] + major;
  }

  /** Every string that passes the tag test ends in `v<digits>.<digits>.<digits>`. */
  lemma VersionTagSound(s: string) returns (pre: string, major: string, minor: string, patch: string)
    requires EndsWithVersionTag(s)
    ensures major != [] && minor != [] && patch != []
    ensures AllDigits(major) && AllDigits(minor) && AllDigits(patch)
    ensures s == pre + "v" + major + "." + minor + "." + patch
  {
    var s2 := StripDigitsAfter(s, '.').value;
    var s1 := StripDigitsAfter(s2, '.').value;
    pre := StripDigitsAfter(s1, 'v').value;
    major := s1[|pre| + 1..];
    minor := s2[|s1| + 1..];
    patch := s[|s2| + 1..];
    assert s1 == pre + "v" + major;
    assert s2 == s1 + "." + minor;
    assert s == s2 + "." + patch;
  }

  // ---------------------------------------------------------------------
  // Branch-reference normaliser (extractCleanedBranchName)
  // ---------------------------------------------------------------------

  /** The last-path-segment values that never get a branch suffix. */
  const ExcludedBranchNames: seq<string> := ["main", "develop", "development"]

  const MaxBranchNameLength: nat := 25

  /** The class the filter keeps: `[a-zA-Z0-9-]`. */
  predicate IsBranchNameChar(c: char) { IsAsciiAlnum(c) || c == '-' }

  predicate IsHyphen(c: char) { c == '-' }

  /** What a cleaned branch name is made of: `[a-z0-9-]`. */
  predicate IsCleanChar(c: char) { IsAsciiLower(c) || IsDigit(c) || c == '-' }

  /** `s.split('/')` followed by taking its last element. */
  function LastPathSegment(s: string): (r: string)
    ensures EndsWith(s, r) && '/' !in r
    ensures |r| < |s| ==> s[|s| - |r| - 1] == '/'
  {
    LastSplitPart(s, '/')
  }

  /** The last path segment of the lower-cased ref, with every character outside `[a-zA-Z0-9-]` removed. */
  function FilteredSegment(gitBranchRef: string): (f: string)
    ensures forall i :: 0 <= i < |f| ==> IsCleanChar(f[i])
  {
    var lastPart := LastPathSegment(LowerCase(gitBranchRef));
    assert NoAsciiUpper(lastPart) by {
      var lower := LowerCase(gitBranchRef);
      forall i | 0 <= i < |lastPart| ensures !IsAsciiUpper(lastPart[i]) {
        assert lastPart[i] == lower[|lower| - |lastPart| + i];
      }
    }
    var f := Filter(lastPart, IsBranchNameChar);
    assert forall i :: 0 <= i < |f| ==> IsCleanChar(f[i]) by {
      forall i | 0 <= i < |f| ensures IsCleanChar(f[i]) {
        assert f[i] in f;
        var j :| 0 <= j < |lastPart| && lastPart[j] == f[i];
      }
    }
    f
  }

  /**
   * `s.replace(/-+$/, '').substring(0, 25)`: the hyphen strip comes before the
   * cut. The result is a prefix of `f` of at most 25 characters; when it is
   * shorter, it is exactly `f` without its trailing hyphens; when it is 25
   * long, some character other than a hyphen comes at or after position 24 of `f`.
   */
  function StripThenCut(f: string): (r: string)
    ensures IsPrefix(r, f) && |r| <= MaxBranchNameLength
    ensures forall i :: 0 <= i < |r| ==> r[i] == f[i]
    ensures |r| < MaxBranchNameLength ==>
      (r == [] || r[|r| - 1] != '-') && forall i :: |r| <= i < |f| ==> f[i] == '-'
    ensures |r| == MaxBranchNameLength ==> exists i :: MaxBranchNameLength - 1 <= i < |f| && f[i] != '-'
  {
    var withoutTrailingHyphens := DropTrailing(f, IsHyphen);
    var r := Take(withoutTrailingHyphens, MaxBranchNameLength);
    assert |r| == MaxBranchNameLength ==> f[|withoutTrailingHyphens| - 1] != '-';
    r
  }

  /**
   * extractCleanedBranchName: `None` for a missing or empty ref, for a ref
   * ending in a release tag and for a ref whose last segment is `main`,
   * `develop` or `development`; otherwise the filtered last segment with its
   * trailing hyphens stripped and then cut to 25 characters.
   */
  function ExtractCleanedBranchName(gitBranchRef: Option<string>): (r: Option<string>)
    ensures r.Some? <==>
      && Truthy(gitBranchRef)
      && !EndsWithVersionTag(gitBranchRef.value)
      && LastPathSegment(LowerCase(gitBranchRef.value)) !in ExcludedBranchNames
    ensures r.Some? ==> |r.value| <= MaxBranchNameLength
    ensures r.Some? ==> forall i :: 0 <= i < |r.value| ==> IsCleanChar(r.value[i])
    ensures r.Some? ==> r.value == StripThenCut(FilteredSegment(gitBranchRef.value))
  {
    if !Truthy(gitBranchRef) then None
    else if EndsWithVersionTag(gitBranchRef.value) then None
    else
      var lastPart := LastPathSegment(LowerCase(gitBranchRef.value));
      if lastPart in ExcludedBranchNames then None
      else
        var f := FilteredSegment(gitBranchRef.value);
        Some(StripThenCut(f))
  }

  // ---------------------------------------------------------------------
  // Resource-name resolver (generateUniqueResourceName)
  // ---------------------------------------------------------------------

  const MaxResourceNameLength: nat := 64

  predicate IsNotAlnum(c: char) { !IsAsciiAlnum(c) }

  /** `<baseName>-<suffix>` before the length cap is applied. */
  function ComposeResourceName(baseName: string, gitBranchRef: Option<string>, environment: Option<string>): (name: string)
    ensures IsPrefix(baseName + "-", name) && |name| > |baseName| + 1
  {
    var branchName := ExtractCleanedBranchName(gitBranchRef);
    var env := if Truthy(environment) then environment.value else "dev";
    if Truthy(branchName) then baseName + "-" + branchName.value else baseName + "-" + env
  }

  /**
   * The suffix is the cleaned branch name when that is non-empty, else the
   * environment, else `dev`.
   */
  lemma ResourceNameSuffix(baseName: string, gitBranchRef: Option<string>, environment: Option<string>)
    ensures var suffix := ComposeResourceName(baseName, gitBranchRef, environment)[|baseName| + 1..];
      var branchName := ExtractCleanedBranchName(gitBranchRef);
      && (Truthy(branchName) ==> suffix == branchName.value)
      && (!Truthy(branchName) && Truthy(environment) ==> suffix == environment.value)
      && (!Truthy(branchName) && !Truthy(environment) ==> suffix == "dev")
  {
    var name := ComposeResourceName(baseName, gitBranchRef, environment);
    var branchName := ExtractCleanedBranchName(gitBranchRef);
    if Truthy(branchName) {
      assert name == (baseName + "-") + branchName.value;
    } else if Truthy(environment) {
      assert name == (baseName + "-") + environment.value;
    } else {
      assert name == (baseName + "-") + "dev";
    }
  }

  /**
   * generateUniqueResourceName: a name of at most 64 characters; a composed
   * name that fits is returned as it is, a longer one is cut to 64
   * characters and loses its trailing run of non-alphanumeric characters.
   */
  function GenerateUniqueResourceName(baseName: string, gitBranchRef: Option<string>, environment: Option<string>): (r: string)
    ensures |r| <= MaxResourceNameLength
    ensures var name := ComposeResourceName(baseName, gitBranchRef, environment);
      && (|name| <= MaxResourceNameLength ==> r == name)
      && (|name| > MaxResourceNameLength ==>
            && IsPrefix(r, name)
            && (r == [] || IsAsciiAlnum(r[|r| - 1]))
            && forall i :: |r| <= i < MaxResourceNameLength ==> !IsAsciiAlnum(name[i]))
  {
    var resourceName := ComposeResourceName(baseName, gitBranchRef, environment);
    if |resourceName| <= MaxResourceNameLength then resourceName
    else DropTrailing(resourceName[..MaxResourceNameLength], IsNotAlnum)
  }

  // ---------------------------------------------------------------------
  // Task generator (addCdkActionTask)
  // ---------------------------------------------------------------------

  /** A projen task as handed to `addTask`. */
  datatype Task = Task(name: string, description: string, env: map<string, string>, exec: string)

  datatype TaskError =
    | MissingEnvironment        // `targetAccount.ENVIRONMENT.toUpperCase()` on `undefined`
    | DuplicateTask(name: string)

  const TaskActions: seq<string> := ["synth", "diff", "deploy", "destroy"]
  const StackNamePattern: string := "*Stack*"

  function Lookup(m: map<string, string>, key: string): Option<string> {
    if key in m then Some(m[key]) else None
  }

  /** `branch:<ENV>:` when GIT_BRANCH_REF is truthy, else `<ENV>:`. */
  function TaskNamePrefix(targetAccount: map<string, string>): string
    requires "ENVIRONMENT" in targetAccount
  {
    if Truthy(Lookup(targetAccount, "GIT_BRANCH_REF"))
    then "branch:" + targetAccount["ENVIRONMENT"] + ":"
    else targetAccount["ENVIRONMENT"] + ":"
  }

  function TaskName(targetAccount: map<string, string>, action: string): string
    requires "ENVIRONMENT" in targetAccount
  {
    TaskNamePrefix(targetAccount) + action
  }

  function TaskDescription(targetAccount: map<string, string>, action: string): string
    requires "ENVIRONMENT" in targetAccount
  {
    Capitalize(action) + " the stacks on the " + UpperCase(targetAccount["ENVIRONMENT"]) + " account"
  }

  /**
   * The command of a task: every one runs `cdk <action>`; every one but
   * synth is scoped to the stack-name pattern; destroy is forced.
   */
  function ExecCommand(action: string): (cmd: string)
    ensures IsPrefix("cdk " + action, cmd)
    ensures action in TaskActions ==> (EndsWith(cmd, StackNamePattern) <==> action != "synth")
  {
    if action == "synth" then "cdk synth"
    else if action == "destroy" then "cdk destroy --force " + StackNamePattern
    else "cdk " + action + " --require-approval never " + StackNamePattern
  }

  function ActionTask(targetAccount: map<string, string>, action: string): Task
    requires "ENVIRONMENT" in targetAccount
  {
    Task(TaskName(targetAccount, action), TaskDescription(targetAccount, action), targetAccount, ExecCommand(action))
  }

  /** The tasks of one environment for `actions`, in the order the loop adds them. */
  function ActionTasks(targetAccount: map<string, string>, actions: seq<string>): (ts: seq<Task>)
    requires "ENVIRONMENT" in targetAccount
    ensures |ts| == |actions|
    ensures forall k :: 0 <= k < |ts| ==> ts[k] == ActionTask(targetAccount, actions[k])
  {
    seq(|actions|, k requires 0 <= k < |actions| => ActionTask(targetAccount, actions[k]))
  }

  function TaskNames(ts: seq<Task>): (names: seq<string>)
    ensures |names| == |ts| && forall k :: 0 <= k < |ts| ==> names[k] == ts[k].name
  {
    seq(|ts|, k requires 0 <= k < |ts| => ts[k].name)
  }

  /** A task table after registering `ts` in order. */
  function WithTasks(m: map<string, Task>, ts: seq<Task>): (r: map<string, Task>)
    ensures r.Keys == m.Keys + set k | 0 <= k < |ts| :: ts[k].name
  {
    if ts == [] then m
    else
      var last := ts[|ts| - 1];
      var r := WithTasks(m, ts[..|ts| - 1])[last.name := last];
      assert forall k :: 0 <= k < |ts| - 1 ==> ts[..|ts| - 1][k] == ts[k];
      r
  }

  predicate DistinctNames(names: seq<string>) {
    forall i, j :: 0 <= i < j < |names| ==> names[i] != names[j]
  }

  /** Index of the first name in `names` that is already in `taken` (or `|names|`). */
  function FirstTaken(names: seq<string>, taken: set<string>): (k: nat)
    ensures k <= |names|
    ensures forall j :: 0 <= j < k ==> names[j] !in taken
    ensures k < |names| ==> names[k] in taken
  {
    if names == [] then 0
    else if names[0] in taken then 0
    else 1 + FirstTaken(names[1..], taken)
  }

  /** The action a task name is for: the text after its last `:`. */
  function ActionOfTaskName(name: string): string {
    LastSplitPart(name, ':')
  }

  /** The generated name of an action gives the action back. */
  lemma ActionOfTaskNameInverse(targetAccount: map<string, string>, action: string)
    requires "ENVIRONMENT" in targetAccount && ':' !in action
    ensures ActionOfTaskName(TaskName(targetAccount, action)) == action
  {
    var name := TaskName(targetAccount, action);
    var last := ActionOfTaskName(name);
    var head := TaskNamePrefix(targetAccount);
    assert name[|head| - 1] == ':';
    assert last == name[|name| - |last|..] == action;
  }

  /** The actions have four different lengths and no `:`. */
  lemma TaskActionShape(i: nat)
    requires i < |TaskActions|
    ensures |TaskActions[i]| == [5, 4, 6, 7][i] && ':' !in TaskActions[i]
  {
  }

  /** The four actions are pairwise distinct. */
  lemma TaskActionsDistinct()
    ensures DistinctNames(TaskActions)
  {
    forall i, j | 0 <= i < j < |TaskActions| ensures TaskActions[i] != TaskActions[j] {
      TaskActionShape(i);
      TaskActionShape(j);
    }
  }

  /** Distinct actions give distinct task names. */
  lemma TaskNamesDistinct(targetAccount: map<string, string>, actions: seq<string>)
    requires "ENVIRONMENT" in targetAccount && DistinctNames(actions)
    ensures DistinctNames(TaskNames(ActionTasks(targetAccount, actions)))
  {
    var names := TaskNames(ActionTasks(targetAccount, actions));
    var prefix := TaskNamePrefix(targetAccount);
    forall i, j | 0 <= i < j < |names| ensures names[i] != names[j] {
      assert names[i] == prefix + actions[i] && names[j] == prefix + actions[j];
      assert names[i][|prefix|..] == actions[i] && names[j][|prefix|..] == actions[j];
    }
  }

  /** A name carries the `branch:<ENV>:` prefix exactly when GIT_BRANCH_REF is truthy. */
  lemma TaskNameBranchPrefix(targetAccount: map<string, string>, action: string)
    requires "ENVIRONMENT" in targetAccount && action in TaskActions
    ensures IsPrefix("branch:" + targetAccount["ENVIRONMENT"] + ":", TaskName(targetAccount, action))
            <==> Truthy(Lookup(targetAccount, "GIT_BRANCH_REF"))
  {
    var env := targetAccount["ENVIRONMENT"];
    var prefix := "branch:" + env + ":";
    var name := TaskName(targetAccount, action);
    if !Truthy(Lookup(targetAccount, "GIT_BRANCH_REF")) {
      assert name == env + ":" + action;
      if action == "destroy" {
        assert name[|prefix| - 1] == 'y' != prefix[|prefix| - 1];
      } else {
        assert |action| < 7;
      }
    }
  }

  /**
   * The task set of a branch-enabled call and that of a plain call for the
   * same environment share no name, so both can be registered in one project.
   */
  lemma PlainAndBranchTaskNamesDisjoint(plain: map<string, string>, branch: map<string, string>, a: string, b: string)
    requires "ENVIRONMENT" in plain && "ENVIRONMENT" in branch
    requires plain["ENVIRONMENT"] == branch["ENVIRONMENT"]
    requires !Truthy(Lookup(plain, "GIT_BRANCH_REF")) && Truthy(Lookup(branch, "GIT_BRANCH_REF"))
    requires a in TaskActions && b in TaskActions
    ensures TaskName(plain, a) != TaskName(branch, b)
  {
    if TaskName(plain, a) == TaskName(branch, b) {
      ActionOfTaskNameInverse(plain, a);
      ActionOfTaskNameInverse(branch, b);
    }
  }

  lemma WithTasksStep(m: map<string, Task>, ts: seq<Task>, i: nat)
    requires i < |ts|
    ensures WithTasks(m, ts[..i + 1]) == WithTasks(m, ts[..i])[ts[i].name := ts[i]]
  {
    assert ts[..i + 1][..i] == ts[..i];
  }

  lemma AppendAssoc(a: seq<string>, b: seq<string>, c: seq<string>)
    ensures (a + b) + c == a + (b + c)
  {
  }

  lemma TaskNamesStep(ts: seq<Task>, i: nat)
    requires i < |ts|
    ensures TaskNames(ts[..i + 1]) == TaskNames(ts[..i]) + [ts[i].name]
  {
  }

  /**
   * While a loop over tasks with distinct names is at step `i` (no earlier
   * name was taken), the next name is already registered exactly when `i`
   * is the first taken position.
   */
  lemma NextNameTaken(ts: seq<Task>, m: map<string, Task>, i: nat)
    requires DistinctNames(TaskNames(ts))
    requires i < |ts| && i <= FirstTaken(TaskNames(ts), m.Keys)
    ensures ts[i].name in WithTasks(m, ts[..i]) <==> i == FirstTaken(TaskNames(ts), m.Keys)
  {
    var names := TaskNames(ts);
    assert forall j :: 0 <= j < i ==> ts[..i][j] == ts[j] && names[j] != names[i];
  }

  /** The project's task table (projen's `Tasks`), in registration order. */
  class Project {
    var taskNames: seq<string>
    var tasks: map<string, Task>

    ghost predicate Valid()
      reads this
    {
      && (forall i, j :: 0 <= i < j < |taskNames| ==> taskNames[i] != taskNames[j])
      && (forall n :: n in tasks <==> n in taskNames)
      && (forall n :: n in tasks ==> tasks[n].name == n)
    }

    constructor ()
      ensures Valid() && taskNames == [] && tasks == map[]
    {
      taskNames := [];
      tasks := map[];
    }

    /**
     * `addTask`: registers a task under a new name; a name that is already
     * registered is refused and nothing changes.
     */
    method AddTask(name: string, description: string, env: map<string, string>, exec: string) returns (ok: bool)
      requires Valid()
      modifies this
      ensures Valid()
      ensures ok <==> name !in old(tasks)
      ensures ok ==> taskNames == old(taskNames) + [name]
                     && tasks == old(tasks)[name := Task(name, description, env, exec)]
      ensures !ok ==> taskNames == old(taskNames) && tasks == old(tasks)
    {
      ok := name !in tasks;
      if ok {
        taskNames := taskNames + [name];
        tasks := tasks[name := Task(name, description, env, exec)];
      }
    }
  }

  /**
   * The body of one loop iteration of addCdkActionTask: the name, the
   * description and the command of the task for `action` (the command is a
   * default that destroy and synth override).
   */
  method ActionTaskFields(targetAccount: map<string, string>, action: string, stackNamePattern: string)
    returns (taskName: string, taskDescription: string, execCommand: string)
    requires "ENVIRONMENT" in targetAccount && stackNamePattern == StackNamePattern
    ensures taskName == TaskName(targetAccount, action)
    ensures taskDescription == TaskDescription(targetAccount, action)
    ensures execCommand == ExecCommand(action)
  {
    var environment := targetAccount["ENVIRONMENT"];
    taskName := if Truthy(Lookup(targetAccount, "GIT_BRANCH_REF"))
      then "branch:" + environment + ":" + action
      else environment + ":" + action;
    taskDescription := Capitalize(action) + " the stacks on the " + UpperCase(environment) + " account";
    execCommand := "cdk " + action + " --require-approval never " + stackNamePattern;
    if action == "destroy" { execCommand := "cdk destroy --force " + stackNamePattern; }
    if action == "synth" { execCommand := "cdk synth"; }
  }

  /** One iteration of the loop of addCdkActionTask: build the task for `action` and register it. */
  method AddActionTask(cdkProject: Project, targetAccount: map<string, string>, action: string, stackNamePattern: string)
    returns (ok: bool, taskName: string)
    requires cdkProject.Valid()
    requires "ENVIRONMENT" in targetAccount && stackNamePattern == StackNamePattern
    modifies cdkProject
    ensures cdkProject.Valid()
    ensures var t := ActionTask(targetAccount, action);
      && taskName == t.name
      && (ok <==> t.name !in old(cdkProject.tasks))
      && (ok ==> cdkProject.taskNames == old(cdkProject.taskNames) + [t.name]
                 && cdkProject.tasks == old(cdkProject.tasks)[t.name := t])
      && (!ok ==> cdkProject.taskNames == old(cdkProject.taskNames) && cdkProject.tasks == old(cdkProject.tasks))
  {
    var taskDescription, execCommand;
    taskName, taskDescription, execCommand := ActionTaskFields(targetAccount, action, stackNamePattern);
    ok := cdkProject.AddTask(taskName, taskDescription, targetAccount, execCommand);
  }

  /**
   * The loop of addCdkActionTask over `taskActions`: registers the task of
   * each action in order and stops at the first name the project already has.
   */
  method AddActionTasks(cdkProject: Project, targetAccount: map<string, string>, taskActions: seq<string>, stackNamePattern: string)
    returns (err: Option<TaskError>)
    requires cdkProject.Valid()
    requires "ENVIRONMENT" in targetAccount && stackNamePattern == StackNamePattern
    requires DistinctNames(taskActions)
    modifies cdkProject
    ensures cdkProject.Valid()
    ensures var ts := ActionTasks(targetAccount, taskActions);
      var k := FirstTaken(TaskNames(ts), old(cdkProject.tasks).Keys);
      && cdkProject.taskNames == old(cdkProject.taskNames) + TaskNames(ts[..k])
      && cdkProject.tasks == WithTasks(old(cdkProject.tasks), ts[..k])
      && err == (if k == |ts| then None else Some(DuplicateTask(ts[k].name)))
  {
    ghost var ts := ActionTasks(targetAccount, taskActions);
    ghost var k := FirstTaken(TaskNames(ts), cdkProject.tasks.Keys);
    TaskNamesDistinct(targetAccount, taskActions);
    var i := 0;
    while i < |taskActions|
      invariant i <= k
      invariant cdkProject.Valid()
      invariant cdkProject.taskNames == old(cdkProject.taskNames) + TaskNames(ts[..i])
      invariant cdkProject.tasks == WithTasks(old(cdkProject.tasks), ts[..i])
    {
      var ok, taskName := AddActionTask(cdkProject, targetAccount, taskActions[i], stackNamePattern);
      NextNameTaken(ts, old(cdkProject.tasks), i);
      if !ok {
        assert i == k;
        return Some(DuplicateTask(taskName));
      }
      WithTasksStep(old(cdkProject.tasks), ts, i);
      TaskNamesStep(ts, i);
      AppendAssoc(old(cdkProject.taskNames), TaskNames(ts[..i]), [taskName]);
      i := i + 1;
    }
    assert i == k == |ts|;
    err := None;
  }

  /**
   * addCdkActionTask: adds the synth, diff, deploy and destroy tasks of one
   * environment, in that order. It stops at the first name the project
   * already has (the tasks added before stay), and fails before adding
   * anything when ENVIRONMENT is missing.
   */
  method AddCdkActionTask(cdkProject: Project, targetAccount: map<string, string>) returns (err: Option<TaskError>)
    requires cdkProject.Valid()
    modifies cdkProject
    ensures cdkProject.Valid()
    ensures "ENVIRONMENT" !in targetAccount ==>
      err == Some(MissingEnvironment)
      && cdkProject.taskNames == old(cdkProject.taskNames) && cdkProject.tasks == old(cdkProject.tasks)
    ensures "ENVIRONMENT" in targetAccount ==>
      var ts := ActionTasks(targetAccount, TaskActions);
      var k := FirstTaken(TaskNames(ts), old(cdkProject.tasks).Keys);
      && cdkProject.taskNames == old(cdkProject.taskNames) + TaskNames(ts[..k])
      && cdkProject.tasks == WithTasks(old(cdkProject.tasks), ts[..k])
      && err == (if k == |ts| then None else Some(DuplicateTask(ts[k].name)))
  {
    if "ENVIRONMENT" !in targetAccount {
      // the first iteration calls `toUpperCase` on `undefined` and throws
      // before anything is registered
      return Some(MissingEnvironment);
    }
    TaskActionsDistinct();
    err := AddActionTasks(cdkProject, targetAccount, TaskActions, StackNamePattern);
  }
}
