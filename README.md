# Conformance-test bootstrap: environment selection and per-test namespaces

A verified Dafny model of the decision logic in `pkg/main_test.go`. This file is the bootstrap of a Kubernetes conformance suite that runs as a Sonobuoy plugin on top of the e2e-framework. The model covers:

- **Environment selection.** `getEnv` looks up a variable and falls back to a default. `getEnvironment` maps `K8S_ENVIRONMENT` to one of the `Environment` constants. `isTestApplicable` decides whether a test runs for a list of environments. `GCP` is declared in the constant block without an expression, so Go repeats the previous line: `GCP` has type `Environment` and value `"AKS"`, the same as `AKS`. The model keeps `GCP == AKS`, and several lemmas show what follows from it.
- **Namespace prefix.** TestMain keeps `NS_PREFIX` only when its length in bytes (Go's `len`) is between 1 and 200. Otherwise it uses `"dr-conformance"`. Byte length is the UTF-8 length of the Dafny string (`GoStrings.ByteLen`).
- **Per-test namespace slot.** A Go context is an immutable chain of key/value pairs (`GoContext.Context`). `WithValue` adds a pair at the front, and `Value` returns the newest match or `nil`. `createNSForTest` stores the namespace name under `nsKey(t)` before it issues Create. `deleteNSForTest` reads the slot back, renders it with `fmt.Sprint` (an empty slot renders as `"<nil>"`) and issues Delete with that name. The main result: the name deleted is exactly the name created, whatever Create returned, as long as nothing later writes the same key and the context AfterEachTest receives extends the one createNSForTest returned.
- **Hooks.** The BeforeEachTest and AfterEachTest callbacks. What they send to the progress reporter and to the resource client is recorded as a list of events.

External inputs are parameters:
- the process environment is a `map<string, string>`;
- the name `envconf.RandomName` returns is the `ns` argument;
- the error returned by the resource client's Create or Delete is the `createResult` or `deleteResult` argument;
- the test's failed and skipped flags are arguments.

Two points of the code that are easy to misread:
- `GCP` is not a zero value. Go's constant-repetition rule makes it `"AKS"`.
- `len` counts bytes, not characters, so the 1..200 bound on the prefix is a bound on its UTF-8 encoding.

## Model

| member | source | states |
|---|---|---|
| GoStrings.ByteLen | pkg/main_test.go:91 | Go's `len` of a string is its UTF-8 byte count: at least the number of characters, at most four times that, and zero only for the empty string |
| GoStrings.AsciiByteLen | pkg/main_test.go:91 | on ASCII text the byte length equals the character count |
| GoContext.ValueMatchesBindings | pkg/main_test.go:136-139 | `ctx.Value(key)` on the chain agrees with the key/value map the chain denotes (newest binding wins), and is `nil` for a key never stored |
| GoContext.WithValuesKeepsValue | pkg/main_test.go:136-147 | values added to a context under other keys leave the value of a key unchanged |
| GoContext.WithValuesPreservesAgreement | pkg/main_test.go:136-147 | two contexts that agree on a key still agree on it after the same series of `WithValue` calls (a congruence property of the context chain) |
| GoContext.WithValuesNewestWins | pkg/main_test.go:136-147 | after a series of `WithValue` calls, a key reads back the last value stored under it |
| Environments.GetEnv | pkg/main_test.go:46-52 | returns the stored value whenever the key is present, even if it is empty, and the fallback only when the key is absent |
| Environments.GetEnvIgnoresFallback | pkg/main_test.go:46-52 | for a key that is set, the fallback has no influence on the result |
| Environments.Getenv | pkg/main_test.go:90 | `os.Getenv` returns the stored value, or "" when the variable is unset |
| Environments.GetenvUnsetIsEmpty | pkg/main_test.go:90-91 | `os.Getenv` cannot distinguish an unset variable from one set to "" |
| Environments.GetEnvironment | pkg/main_test.go:54-66 | the result is always OnPrem, EKS or AKS; an unset K8S_ENVIRONMENT gives EKS; EKS exactly for "EKS", AKS exactly for "AKS" or "GCP", OnPrem exactly for every other string including "" |
| Environments.GetEnvironmentRoundTrip | pkg/main_test.go:39-66 | setting K8S_ENVIRONMENT to the value of OnPrem, EKS, AKS or GCP selects that constant again |
| Environments.GcpSelectsAks | pkg/main_test.go:39-66 | K8S_ENVIRONMENT="GCP" and ="AKS" select the same environment, AKS, because GCP's value is "AKS" |
| Environments.IsTestApplicable | pkg/main_test.go:67-74 | the loop returns true iff no element equals AKS or GCP, that is, iff the reference predicate `Applicable` holds |
| Environments.ApplicableEmpty | pkg/main_test.go:67-74 | a test with no environments listed always applies |
| Environments.ApplicableIffNoAks | pkg/main_test.go:39-74 | since GCP is AKS, a test is turned down exactly when AKS is among its environments |
| Environments.ApplicableOverConstants | pkg/main_test.go:39-74 | over the declared constants, a test applies iff every listed environment is OnPrem or EKS |
| Environments.ApplicablePermutation | pkg/main_test.go:67-74 | the order (and multiplicity) of the listed environments does not affect applicability |
| Environments.ApplicableConcat | pkg/main_test.go:67-74 | applicability of a concatenation is the conjunction of both parts, so appending never turns false into true |
| Namespaces.DefaultPrefixIsValid | pkg/main_test.go:34 | "dr-conformance" is 14 bytes long, so the default always passes the 1..200 check |
| Namespaces.SelectNamespacePrefix | pkg/main_test.go:90-94 | the prefix is NS_PREFIX exactly when its byte length is in 1..200, and otherwise "dr-conformance"; the result always has byte length in 1..200 |
| Namespaces.NsKey | pkg/main_test.go:155-157 | the slot key is a non-empty string distinct from the progress-reporter key, so writing the slot never hides the reporter |
| Namespaces.NsKeySharedByAllTests | pkg/main_test.go:155-157 | every test gets the same slot key, "test_namespace" |
| Namespaces.CreateNSForTest | pkg/main_test.go:134-143 | the returned context maps the slot key to the generated name whether or not Create succeeds, every other key keeps its value, Create is issued for that name, and Create's error is returned |
| Namespaces.DeleteNSForTest | pkg/main_test.go:146-153 | Delete is issued for the name stored in the slot, for "<nil>" when the slot is empty, or for the `fmt.Sprint` rendering of another value; the context is returned unchanged with Delete's error |
| Namespaces.SlotRoundTrip | pkg/main_test.go:134-153 | after the slot is written with a name and other keys are added, the name `deleteNSForTest` reads back is that name |
| Namespaces.NewerSlotShadows | pkg/main_test.go:134-157 | because the key ignores the test, a context holding two slot writes answers either test with the newer name |
| Namespaces.CreateThenDelete | pkg/main_test.go:134-153 | `deleteNSForTest` on the context returned by `createNSForTest` deletes exactly the name passed to Create |
| Hooks.BeforeEachTest | pkg/main_test.go:107-110 | reports StartTest and then issues Create for the generated name; the returned context holds that name in the slot and keeps the value of every other key (the reporter's included); Create's error is returned |
| Hooks.AfterEachTest | pkg/main_test.go:111-114 | reports StopTest with the failed and skipped flags and then always issues Delete for the `fmt.Sprint` rendering of the slot (the stored name, or "<nil>" when it is empty); returns Delete's error |
| Hooks.RunTest | pkg/main_test.go:107-114 | across both hooks the events are StartTest, Create(ns), StopTest and a Delete for whatever the slot holds after the test body: ns when the body adds no value under the slot key, and otherwise the last such value |

## Left out

- TestMain's orchestration is not modelled: `env.NewFromFlags`, `Setup`, registering the hooks, `testenv.Run` and `os.Exit`. They configure and run the external test framework.
- Hooks.RunTest: the framework's reaction to a hook error is not modelled (it stops the test, so AfterEachTest may never run). RunTest covers the case in which the framework runs both hooks. The test body is modelled as a series of `WithValue` calls on the context BeforeEachTest returned. A body or framework that hands AfterEachTest a context not derived from it is not covered: the slot then reads nil, `Delete("<nil>")` is issued, and the namespace stays.
- `envconf.RandomName` and the derivation of the run ID from the prefix are not modelled: the function is random and external. Names are inputs, so the model cannot show that names are distinct across tests or that they start with the run ID.
- `config.NewClient()` and the resource client's Create and Delete are Kubernetes API I/O. Only the call and its name are recorded, and the error each call returns is an input.
- The progress reporter is only an event log. `StopTest`'s error argument is always nil at the call site, so the event omits it.
- `t.Logf` and `fmt.Printf` output is left out, including the "too long" warning also printed for an empty prefix.
- Concurrency between tests run by the framework is left out. Each test's context chain is independent.
- GoStrings.ByteLen: environment values that are not valid UTF-8 cannot be represented in a Dafny string, so their byte length is not modelled.
- Context keys: only string keys are modelled, because every key the file uses is a string. Keys of other dynamic types are not.
