/**
 * The task generator and the workflow generator read the same environment
 * configuration. These lemmas relate what the workflows run to the tasks
 * the generator registers.
 */
module Consistency {
  import opened Strings
  import opened EnvHelper
  import opened CicdHelper

  /** A target account of the task generator for environment `env`, in branch mode or not. */
  predicate DescribesAccount(targetAccount: map<string, string>, env: string, deployForBranch: bool) {
    && "ENVIRONMENT" in targetAccount
    && targetAccount["ENVIRONMENT"] == env
    && (Truthy(Lookup(targetAccount, "GIT_BRANCH_REF")) <==> deployForBranch)
  }

  lemma NpmRunBranch()
    ensures "npm run branch:" == "npm run " + "branch:"
  {
  }

  /** A workflow's `npm run` command names the task of the same environment, mode and action. */
  lemma TaskRunIsTaskName(targetAccount: map<string, string>, env: string, deployForBranch: bool, action: string)
    requires DescribesAccount(targetAccount, env, deployForBranch)
    ensures TaskRun(env, deployForBranch, action) == "npm run " + TaskName(targetAccount, action)
  {
    if deployForBranch {
      NpmRunBranch();
      assert TaskRun(env, true, action) == "npm run " + ("branch:" + env + ":" + action);
    } else {
      assert TaskRun(env, false, action) == "npm run " + (env + ":" + action);
    }
  }

  /**
   * The deploy job runs the synth task and then the deploy task that
   * addCdkActionTask registers for the same environment and mode.
   */
  lemma DeployJobRunsGeneratedTasks(targetAccount: map<string, string>, account: string, env: string,
                                    nodeVersion: string, deployForBranch: bool, region: Option<string>)
    requires DescribesAccount(targetAccount, env, deployForBranch)
    ensures var job := DeployJob(account, env, nodeVersion, deployForBranch, region);
      var ts := ActionTasks(targetAccount, TaskActions);
      && job.steps[4].action == Run("npm run " + ts[0].name)
      && job.steps[5].action == Run("npm run " + ts[2].name)
      && ts[0].exec == "cdk synth" && ActionOfTaskName(ts[0].name) == "synth"
      && ActionOfTaskName(ts[2].name) == "deploy"
  {
    DeployJobSteps(account, env, nodeVersion, deployForBranch, region);
    TaskRunIsTaskName(targetAccount, env, deployForBranch, "synth");
    TaskRunIsTaskName(targetAccount, env, deployForBranch, "deploy");
    TaskActionShape(0);
    TaskActionShape(2);
    ActionOfTaskNameInverse(targetAccount, "synth");
    ActionOfTaskNameInverse(targetAccount, "deploy");
  }

  lemma DestroyCommandPieces()
    ensures DestroyCommand == "npm run branch:" + "test" + ":destroy"
  {
  }

  lemma PiecesDetermineMiddle(pre: string, a: string, b: string, post: string)
    requires pre + a + post == pre + b + post
    ensures a == b
  {
    assert |a| == |b|;
    assert a == (pre + a + post)[|pre|..|pre| + |a|];
    assert b == (pre + b + post)[|pre|..|pre| + |b|];
  }

  /**
   * Whatever the environment of the destroy workflow, its steps run the
   * branch destroy task of `test`: they run the destroy task of a branch
   * account exactly when that account's environment is `test`.
   */
  lemma DestroyStepsRunTestTask(targetAccount: map<string, string>, env: string)
    requires DescribesAccount(targetAccount, env, true)
    ensures DestroyCommand == "npm run " + TaskName(targetAccount, "destroy") <==> env == "test"
  {
    TaskRunIsTaskName(targetAccount, env, true, "destroy");
    DestroyCommandPieces();
    assert TaskRun(env, true, "destroy") == "npm run branch:" + env + ":destroy";
    if DestroyCommand == TaskRun(env, true, "destroy") {
      PiecesDetermineMiddle("npm run branch:", env, "test", ":destroy");
    }
  }
}
