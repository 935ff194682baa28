/**
 * Selecting the target cluster environment from the process environment and
 * deciding whether a test applies to it. The process environment is a map
 * from variable names to values.
 */
module Environments {

  /** Go's `type Environment string`: any string may be converted to it. */
  datatype Environment = Environment(name: string)

  const OnPrem := Environment("on-prem")
  const EKS := Environment("EKS")
  const AKS := Environment("AKS")
  /**
   * GCP is declared in the same constant block without an expression, so Go
   * repeats the previous line, type and value alike: GCP is "AKS".
   */
  const GCP := Environment("AKS")

  const K8sEnvironmentKey := "K8S_ENVIRONMENT"

  /** `getEnv`: the value of `key` when it is set, `fallback` only when it is not. */
  function GetEnv(env: map<string, string>, key: string, fallback: string): (value: string)
    ensures key in env ==> value == env[key]
    ensures key !in env ==> value == fallback
  {
    if key in env then env[key] else fallback
  }

  /** `os.Getenv`: the value of `key`, or "" when it is not set. */
  function Getenv(env: map<string, string>, key: string): (value: string)
    ensures key in env ==> value == env[key]
    ensures key !in env ==> value == ""
  {
    GetEnv(env, key, "")
  }

  /** A variable that is set, even to "", hides the fallback entirely. */
  lemma GetEnvIgnoresFallback(env: map<string, string>, key: string, fallback: string, other: string)
    requires key in env
    ensures GetEnv(env, key, fallback) == GetEnv(env, key, other)
  {
  }

  /** `os.Getenv` cannot tell an unset variable from one set to "". */
  lemma GetenvUnsetIsEmpty(env: map<string, string>, key: string)
    ensures Getenv(env - {key}, key) == Getenv(env[key := ""], key)
  {
  }

  /** `getEnvironment`: the environment named by K8S_ENVIRONMENT, defaulting to "EKS". */
  function GetEnvironment(env: map<string, string>): (e: Environment)
    ensures e == OnPrem || e == EKS || e == AKS
    ensures K8sEnvironmentKey !in env ==> e == EKS
    ensures e == EKS <==> GetEnv(env, K8sEnvironmentKey, "EKS") == "EKS"
    ensures e == AKS <==> GetEnv(env, K8sEnvironmentKey, "EKS") in {"AKS", "GCP"}
    ensures e == OnPrem <==> GetEnv(env, K8sEnvironmentKey, "EKS") !in {"EKS", "AKS", "GCP"}
  {
    var value := GetEnv(env, K8sEnvironmentKey, "EKS");
    if value == "EKS" then EKS
    else if value == "AKS" then AKS
    else if value == "GCP" then GCP
    else OnPrem
  }

  /** Naming a constant's own value selects that constant again. */
  lemma GetEnvironmentRoundTrip(e: Environment)
    requires e in {OnPrem, EKS, AKS, GCP}
    ensures GetEnvironment(map[K8sEnvironmentKey := e.name]) == e
  {
  }

  /** "GCP" and "AKS" select the same environment: nothing downstream can tell them apart. */
  lemma GcpSelectsAks(env: map<string, string>)
    ensures GetEnvironment(env[K8sEnvironmentKey := "GCP"]) == GetEnvironment(env[K8sEnvironmentKey := "AKS"]) == AKS
  {
  }

  /** An environment that `isTestApplicable` turns a test down for. */
  predicate Excluded(e: Environment) {
    e == AKS || e == GCP
  }

  /** Reference definition: a test applies when none of its environments is excluded. */
  predicate Applicable(envs: seq<Environment>) {
    forall e :: e in envs ==> !Excluded(e)
  }

  /** `isTestApplicable`: scans the environments and stops at the first excluded one. */
  method IsTestApplicable(envs: seq<Environment>) returns (applicable: bool)
    ensures applicable <==> forall i :: 0 <= i < |envs| ==> envs[i] != AKS && envs[i] != GCP
    ensures applicable == Applicable(envs)
  {
    for i := 0 to |envs|
      invariant forall j :: 0 <= j < i ==> !Excluded(envs[j])
    {
      if envs[i] == AKS || envs[i] == GCP {
        assert envs[i] in envs;
        return false;
      }
    }
    return true;
  }

  /** With no environments listed a test always applies. */
  lemma ApplicableEmpty()
    ensures Applicable([])
  {
  }

  /** Because GCP is AKS, a test is turned down exactly when AKS is listed. */
  lemma ApplicableIffNoAks(envs: seq<Environment>)
    ensures Applicable(envs) <==> AKS !in envs
  {
  }

  /** Over the declared constants, a test applies iff every listed environment is OnPrem or EKS. */
  lemma ApplicableOverConstants(envs: seq<Environment>)
    requires forall e :: e in envs ==> e in {OnPrem, EKS, AKS, GCP}
    ensures Applicable(envs) <==> forall e :: e in envs ==> e == OnPrem || e == EKS
  {
  }

  /** The order of the environments does not matter. */
  lemma {:induction false} ApplicablePermutation(a: seq<Environment>, b: seq<Environment>)
    requires multiset(a) == multiset(b)
    ensures Applicable(a) == Applicable(b)
  {
    forall e ensures e in a <==> e in b {
      assert e in a <==> e in multiset(a);
      assert e in b <==> e in multiset(b);
    }
  }

  /** Listing more environments never turns a refusal into acceptance. */
  lemma {:induction false} ApplicableConcat(a: seq<Environment>, b: seq<Environment>)
    ensures Applicable(a + b) <==> Applicable(a) && Applicable(b)
    ensures !Applicable(a) ==> !Applicable(a + b)
  {
    forall e ensures e in a + b <==> e in a || e in b {
    }
  }
}
