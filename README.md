# CDK starter kit generators, modelled in Dafny

The starter kit builds a projen project for an AWS CDK application and gives it:

- four per-environment CDK tasks (`synth`, `diff`, `deploy`, `destroy`);
- GitHub Actions workflows that deploy an environment and, for branch deployments, tear the branch's stacks down again;
- resource names derived from the branch reference or the environment.

This project models the three helper files that compute these things and proves properties of them:

- `env-helper.ts` becomes the modules `EnvHelper` and `EnvExamples`:
  - the branch-reference normaliser `extractCleanedBranchName`;
  - the resource-name resolver `generateUniqueResourceName`;
  - the task generator `addCdkActionTask`. It is a loop that writes into projen's task table, so it is modelled as methods on a `Project` class.
- `cicd-helper.ts` becomes the module `CicdHelper`:
  - the workflow builders, as methods over `GitHub` and `GithubWorkflow` classes;
  - the data handed to `on` and `addJobs` (triggers, jobs, permissions, steps, step conditions), as datatypes built by functions;
  - the value of a condition for a run, and the meaning of a push branch filter.
- `git-helper.ts` becomes the module `GitHelper`:
  - `parseGitRemoteUrl`, as a deterministic parser proved sound and complete against the regular expression, which is written as a relation;
  - the check and error of `getGitRepositoryDetails`.
- `Consistency` ties the two generators together: the `npm run` commands of the workflows are the names of the generated tasks.
- `Strings` holds the string operations of JavaScript the code relies on: `toLowerCase`, `toUpperCase`, `split`, the character-class filters, trailing-run removal and `substring`.

Ambient inputs are parameters:

- `process.env.GIT_BRANCH_REF`, `process.env.ENVIRONMENT` and `process.env.CDK_DEFAULT_REGION`;
- the remote URL that `git config` would print.

## Model

| member | source | states |
|---|---|---|
| EnvHelper.VersionTagComplete | src/bin/env-helper.ts:47-48 | every ref ending in `v<digits>.<digits>.<digits>` passes the release-tag test |
| EnvHelper.VersionTagSound | src/bin/env-helper.ts:47-48 | every ref passing the release-tag test ends in `v<digits>.<digits>.<digits>` |
| EnvHelper.LastPathSegment | src/bin/env-helper.ts:53-54 | the last element of `split('/')` is a suffix of the ref, has no `/`, and is preceded by a `/` unless it is the whole ref |
| EnvHelper.FilteredSegment | src/bin/env-helper.ts:52-62 | after lower-casing and filtering, only characters of `[a-z0-9-]` remain |
| EnvHelper.StripThenCut | src/bin/env-helper.ts:62-64 | the result is a prefix of the filtered segment, at most 25 long; a shorter result is the segment without its trailing hyphens; a result of length 25 has a non-hyphen at or after position 24 of the segment |
| EnvHelper.ExtractCleanedBranchName | src/bin/env-helper.ts:42-65 | a name is returned exactly when the ref is truthy, is no release tag, and its lower-cased last segment is not `main`, `develop` or `development`; the name is at most 25 characters of `[a-z0-9-]` and is the strip-then-cut of the filtered segment |
| EnvHelper.ComposeResourceName | src/bin/env-helper.ts:74-76 | the composed name starts with `<baseName>-` and has a non-empty suffix |
| EnvHelper.ResourceNameSuffix | src/bin/env-helper.ts:74-76 | the suffix is the cleaned branch name when that is non-empty, otherwise ENVIRONMENT when that is truthy, otherwise `dev` |
| EnvHelper.GenerateUniqueResourceName | src/bin/env-helper.ts:73-84 | the result is at most 64 long; a composed name that fits is returned unchanged; a longer one is cut to a prefix that ends in an alphanumeric character or is empty, and everything dropped between the result and position 64 is non-alphanumeric |
| EnvHelper.ExecCommand | src/bin/env-helper.ts:24-26 | every command starts with `cdk <action>`; of the four actions, all but synth end in the stack-name pattern `*Stack*` |
| EnvHelper.ActionOfTaskNameInverse | src/bin/env-helper.ts:16-18 | the action can be read back from a task name: it is the text after the last `:` |
| EnvHelper.TaskActionsDistinct | src/bin/env-helper.ts:12 | the four actions are pairwise distinct |
| EnvHelper.TaskNamesDistinct | src/bin/env-helper.ts:15-18 | distinct actions give distinct task names for one target account |
| EnvHelper.TaskNameBranchPrefix | src/bin/env-helper.ts:16-18 | a task name carries `branch:<ENVIRONMENT>:` exactly when GIT_BRANCH_REF is truthy |
| EnvHelper.PlainAndBranchTaskNamesDisjoint | src/bin/env-helper.ts:16-18 | the plain task set and the branch task set of one environment share no name |
| EnvHelper.Project.AddTask | src/bin/env-helper.ts:28-32 | a task with a new name is appended and stored under that name; a duplicate name is refused and nothing changes; the table stays consistent |
| EnvHelper.ActionTaskFields | src/bin/env-helper.ts:16-26 | one loop iteration computes the task name, the description and the command of the action's task |
| EnvHelper.AddActionTask | src/bin/env-helper.ts:15-33 | one iteration registers the action's task exactly when its name is new, and otherwise leaves the project unchanged |
| EnvHelper.AddActionTasks | src/bin/env-helper.ts:15-33 | the loop registers the tasks in order up to the first name already taken, and reports that name as a duplicate |
| EnvHelper.AddCdkActionTask | src/bin/env-helper.ts:11-34 | without ENVIRONMENT it fails and adds nothing; otherwise the synth, diff, deploy and destroy tasks are added in that order, stopping at the first duplicate name, and the tasks added before it stay |
| EnvExamples.NotVersionTag | src/bin/env-helper.ts:47-48 | a ref whose last character is not a digit is no release tag |
| EnvExamples.LastSegmentOfRef | src/bin/env-helper.ts:52-54 | for `prefix/segment`, the segment examined is the lower-cased segment |
| EnvExamples.CleanedNameOfSegment | src/bin/env-helper.ts:52-64 | for a `prefix/segment` ref that is no tag, only the segment decides the result |
| EnvExamples.TagRefIsAbsent | src/bin/env-helper.ts:47-50 | `refs/tags/v1.2.3` gives no branch name |
| EnvExamples.ExcludedSegmentIsAbsent | src/bin/env-helper.ts:56-59 | a ref whose last segment is an excluded name gives no branch name |
| EnvExamples.FeatureMainIsAbsent | src/bin/env-helper.ts:52-59 | `feature/main` gives no branch name, because only the last segment is examined |
| EnvExamples.UnderscoreNotExcluded | src/bin/env-helper.ts:57 | a segment that contains `_` is never `main`, `develop` or `development` |
| EnvExamples.UnderscoreIsDropped | src/bin/env-helper.ts:61-64 | an underscore is removed, not replaced: `prefix/a_b` with clean `a` and `b` gives `ab`, cut to 25 characters |
| EnvExamples.NothingLeftIsEmpty | src/bin/env-helper.ts:61-64 | a segment that the filter empties gives the empty name; that name is present but not truthy |
| EnvExamples.CutCanEndInHyphen | src/bin/env-helper.ts:62-64 | a long clean segment with a hyphen at position 25 gives a 25-character name ending in that hyphen |
| EnvExamples.ExcludedNameWithHyphen | src/bin/env-helper.ts:56-62 | `prefix/main-` gives `main`, because the exclusion is checked before the hyphen strip (likewise for the other excluded names) |
| EnvExamples.DataBucketProduction | src/bin/env-helper.ts:73-79 | without a ref and with ENVIRONMENT `production`, `DataBucket` becomes `DataBucket-production` |
| EnvExamples.ExcludedRefFallsBack | src/bin/env-helper.ts:74-76 | a ref with an excluded last segment silently gives the environment suffix, or `dev` |
| GitHelper.FindHostStart | src/bin/git-helper.ts:32 | the leftmost position where `git@` or `https://` starts a non-empty host run ending at the separator, or none |
| GitHelper.StripGitSuffix | src/bin/git-helper.ts:32 | the lazy repository group: the tail, or the tail without one trailing `.git`; never empty for a non-empty tail |
| GitHelper.ParseGitRemoteUrl | src/bin/git-helper.ts:31-41 | owner and repository are both present or both absent; when present, each is a non-empty run of `[\w,.-]` |
| GitHelper.ParseComplete | src/bin/git-helper.ts:32-40 | every match the engine reports (one with a lazy repository group) gives the parser's result, owner and repository alike |
| GitHelper.ParseSound | src/bin/git-helper.ts:32-40 | every result the parser returns is the owner and repository groups of a lazy match of the pattern |
| GitHelper.LazyMatchExists | src/bin/git-helper.ts:32 | every match has a lazy counterpart with the same owner |
| GitHelper.SshRemote | src/bin/git-helper.ts:31-40 | `git@HOST:OWNER/REPO.git` gives OWNER and REPO |
| GitHelper.HttpsRemote | src/bin/git-helper.ts:31-40 | `https://HOST/OWNER/REPO`, with or without `.git`, gives OWNER and REPO |
| GitHelper.RefusedWithoutHost | src/bin/git-helper.ts:32-36 | without a host ending at the separator before the last `/`, nothing is parsed |
| GitHelper.HyphenatedHostRefused | src/bin/git-helper.ts:32-36 | a remote whose host contains a hyphen gives neither owner nor repository |
| GitHelper.GetGitRepositoryDetails | src/bin/git-helper.ts:7-16 | success exactly when both parsed parts are truthy, carrying them; otherwise the error `Unable to parse Git repository URL` |
| GitHelper.RepositoryDetailsExactlyOnMatch | src/bin/git-helper.ts:7-16 | the details are returned exactly when the pattern matches the URL, and then both parts are non-empty |
| CicdHelper.GetCommonWorkflowSteps | src/bin/cicd-helper.ts:148-175 | four steps, none conditional, none with an id or an environment |
| CicdHelper.CommonStepsOrder | src/bin/cicd-helper.ts:149-174 | checkout, Node.js set-up, AWS credentials and `npm ci`, in that order |
| CicdHelper.NodeVersionInput | src/bin/cicd-helper.ts:154-161 | the npm cache is always set; `node-version` is `>=<version>` exactly when a version is given, and absent otherwise |
| CicdHelper.CredentialsInputs | src/bin/cicd-helper.ts:162-169 | the deploy role of the account is assumed exactly when an account is given; the region is passed exactly when it is defined |
| CicdHelper.RoleArnInjective | src/bin/cicd-helper.ts:166 | different accounts give different role ARNs |
| CicdHelper.DeployTriggers | src/bin/cicd-helper.ts:43-50 | manual dispatch always; no delete trigger; a push trigger unless the mainline workflow is for `production` |
| CicdHelper.DeployJobSteps | src/bin/cicd-helper.ts:54-73 | six unconditional steps: the common steps with account and version, then the synth task, then the deploy task; the job's permissions |
| CicdHelper.BranchModeFilter | src/bin/cicd-helper.ts:45 | the branch-mode filter admits a branch exactly when it is not `main` and not directly under `hotfix/` |
| CicdHelper.MainlineFilter | src/bin/cicd-helper.ts:47 | the mainline filter admits exactly `main` |
| CicdHelper.DeployPushes | src/bin/cicd-helper.ts:43-50 | a push starts the deploy workflow exactly for a feature branch in branch mode, and otherwise exactly for `main` outside production |
| CicdHelper.BranchAndMainlineDeploysDisjoint | src/bin/cicd-helper.ts:44-48 | no push starts both a branch deployment and a mainline deployment |
| CicdHelper.DestroyJobShape | src/bin/cicd-helper.ts:92-135 | eight steps: the common steps without a role or a version pin, then the four destroy-side steps, three of which run `npm run branch:test:destroy`; the job's permissions |
| CicdHelper.ConditionValues | src/bin/cicd-helper.ts:97-129 | the value of the job guard and of each step condition for a run |
| CicdHelper.DestroyStepsExclusive | src/bin/cicd-helper.ts:111-134 | at most one of the three destroy steps runs in any run |
| CicdHelper.DestroyStepsOnTriggers | src/bin/cicd-helper.ts:87-134 | for the events the workflow listens to: a manual run destroys through the manual step; a branch deletion destroys through the after-delete step and first names the branch; a tag deletion destroys nothing; the pull-request step never runs |
| CicdHelper.GuardAdmitsDestroys | src/bin/cicd-helper.ts:97-121 | the job guard never holds back the manual or the after-delete destroy |
| CicdHelper.GuardSparesMainPullRequests | src/bin/cicd-helper.ts:97-129 | a pull-request destroy that passes the guard never has `main` as its head |
| CicdHelper.BranchNameWrittenBeforeRead | src/bin/cicd-helper.ts:105-125 | the step that writes the branch-name output comes first and runs whenever the step that reads it runs |
| CicdHelper.DeployAndDestroyNamesDiffer | src/bin/cicd-helper.ts:42-86 | no deploy workflow has the name of a destroy workflow |
| CicdHelper.DeployNameInjective | src/bin/cicd-helper.ts:42 | within one mode, different environments give different deploy workflow names |
| CicdHelper.DeployNamesCollideAcrossModes | src/bin/cicd-helper.ts:42 | the mainline workflow of `E-branch` has the name of the branch workflow of `E` |
| CicdHelper.DestroyNameInjective | src/bin/cicd-helper.ts:86 | different environments give different destroy workflow names |
| CicdHelper.GithubWorkflow.constructor | src/bin/cicd-helper.ts:42 | a new, empty workflow with the given name, appended to the GitHub component's workflows |
| CicdHelper.GithubWorkflow.On | src/bin/cicd-helper.ts:43-50 | the given triggers are added, replacing triggers of the same kind; name and jobs are unchanged |
| CicdHelper.GithubWorkflow.AddJobs | src/bin/cicd-helper.ts:54-74 | the given jobs are added, replacing jobs of the same id; name and triggers are unchanged |
| CicdHelper.CreateCdkDeploymentWorkflow | src/bin/cicd-helper.ts:35-77 | exactly one fresh workflow is appended; it has the deploy name, the deploy triggers and the single job `deploy` |
| CicdHelper.CreateCdkDestroyWorkflow | src/bin/cicd-helper.ts:85-140 | exactly one fresh workflow is appended; it has the destroy name, the dispatch and delete triggers, and the single job `destroy` |
| CicdHelper.CreateCdkDeploymentWorkflows | src/bin/cicd-helper.ts:12-24 | the existing workflows are kept; the deploy workflow is appended, followed by the destroy workflow exactly in branch mode |
| Consistency.TaskRunIsTaskName | src/bin/cicd-helper.ts:66-70 | a workflow's `npm run` command names the generated task of the same environment, mode and action |
| Consistency.DeployJobRunsGeneratedTasks | src/bin/cicd-helper.ts:63-72 | the deploy job runs the synth task and then the deploy task that the task generator registers for the same environment and mode |
| Consistency.DestroyStepsRunTestTask | src/bin/cicd-helper.ts:114 | the destroy steps run a branch account's destroy task exactly when that account's environment is `test` |

## Left out

- `getGitRemoteUrl` and its `execSync('git config …')` call are not modelled. The URL it would return is the input of `GetGitRepositoryDetails`.
- The `process.env` reads are parameters: `GIT_BRANCH_REF` and `ENVIRONMENT` in the resource-name resolver, and `CDK_DEFAULT_REGION` in the common steps.
- Several parts of projen are not modelled:
  - `GitHub`, `GithubWorkflow` and the task table are modelled only as far as these helpers use them;
  - the serialisation of workflows to YAML is not modelled;
  - the check that rejects two workflow files of the same name is not modelled; `DeployNamesCollideAcrossModes` shows when that check would fire.
- `Project.AddTask` refuses a duplicate name. This follows projen's `addTask`, which throws on a redefined task; an exception in the middle of the loop is modelled as an error result.
- GenerateUniqueResourceName: lengths, the 64-character test and the cut count Unicode scalar values, where JavaScript's `.length` and `slice` count UTF-16 code units. The two agree for text within the Basic Multilingual Plane. They differ when `baseName` or ENVIRONMENT holds a character outside it: forty U+1F680 characters make a name of 44 scalar values, which the model keeps whole, but 84 code units, which the code cuts and then strips to the empty string. The branch name is not affected, because its filter keeps only ASCII.
- `UpperCase`, used in task descriptions and step names, maps only ASCII letters; other characters are kept unchanged. `LowerCase` handles ASCII letters and the two non-ASCII characters whose lower case contains an ASCII letter (U+212A to `k`, U+0130 to `i` followed by U+0307); any other character it keeps is removed by the branch filter anyway.
- `SameText`, GitHub's case-insensitive string comparison, compares ASCII letters without regard to case and every other character exactly.
- `GithubWorkflow.On` merges the given triggers over the existing ones. The `push: undefined` that `createCdkDeploymentWorkflow` passes for a production mainline workflow is modelled as a missing `Push` key. In projen, the spread of an `undefined` value would remove an existing push trigger, while the model keeps it. The two agree here, because `On` is only called on a fresh workflow, which has no triggers.
- The text of the `if:` conditions is modelled by its meaning, the `Expr` datatype; its rendering as a string is not modelled.
- Of the branch-filter syntax, only `*`, `**` and a leading `!` are modelled; `?`, `+` and character ranges do not occur in these workflows.
- Step names and job names that only describe a step are computed but not stated in any lemma. Only what runs, and under which condition, is.
- The stacks, constructs and entry point of the application are not part of this model.
- The project's own `.projenrc.ts` is not part of this model, so neither is which environments it configures.

## Behaviour worth knowing

- The cleaned branch name can end in a hyphen, because the hyphen strip runs before the 25-character cut (`EnvExamples.CutCanEndInHyphen`).
- An excluded name followed by a hyphen is not excluded: `main-` becomes `main` (`EnvExamples.ExcludedNameWithHyphen`).
- An underscore is removed, not turned into a hyphen (`EnvExamples.UnderscoreIsDropped`).
- A ref whose last segment is `main`, `develop` or `development` falls back to the environment suffix, or `dev`, without any error (`EnvExamples.ExcludedRefFallsBack`).
- The branch-mode push filter excludes only `main` and branches directly under `hotfix/` (`CicdHelper.BranchModeFilter`).
- `addCdkActionTask` adds exactly four tasks, named all with `branch:` or all without it (`EnvHelper.AddCdkActionTask`).
- The destroy steps run `npm run branch:test:destroy` whatever the environment of the destroy workflow (`Consistency.DestroyStepsRunTestTask`).
- The destroy workflow has no `pull_request` trigger, so its pull-request step never runs (`CicdHelper.DestroyStepsOnTriggers`).
- The delete trigger has no branch filter. A tag deletion runs the destroy job, but none of its destroy steps.
- A remote whose host contains a hyphen cannot be parsed, so `getGitRepositoryDetails` fails for it (`GitHelper.HyphenatedHostRefused`).
- The mainline deploy workflow of `E-branch` has the same name as the branch deploy workflow of `E` (`CicdHelper.DeployNamesCollideAcrossModes`).
