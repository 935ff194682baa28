/**
 * The run-wide namespace prefix and the per-test namespace slot. Before a
 * test, `createNSForTest` stores the test's namespace name in the context
 * under `nsKey(t)` and asks the cluster to create it; after the test,
 * `deleteNSForTest` reads the name back from the context and asks the cluster
 * to delete it. The random name and the answers of the Kubernetes API are
 * inputs here.
 */
module Namespaces {
  import opened GoStrings
  import opened GoContext
  import opened Environments

  const ProgressReporterCtxKey := "SONOBUOY_PROGRESS_REPORTER"
  const NamespacePrefixKey := "NS_PREFIX"
  const DefaultNamespacePrefix := "dr-conformance"

  /** A Go `error` as returned by the resource client: nil or some failure. */
  datatype Error = NoError | ApiError(reason: string)

  /** The one call a hook makes on the resource client, with the namespace name it carries. */
  datatype Request = Create(name: string) | Delete(name: string)

  /** A prefix TestMain keeps: between 1 and 200 bytes long. */
  predicate ValidNamespacePrefix(prefix: string) {
    !(ByteLen(prefix) > 200 || ByteLen(prefix) == 0)
  }

  /** The default prefix is 14 bytes and therefore always acceptable. */
  lemma DefaultPrefixIsValid()
    ensures ByteLen(DefaultNamespacePrefix) == 14
    ensures ValidNamespacePrefix(DefaultNamespacePrefix)
  {
  }

  /**
   * The prefix TestMain derives the run ID from: NS_PREFIX when its byte
   * length is in 1..200, and the default otherwise (an unset variable reads
   * as "", which is rejected like any empty value).
   */
  method SelectNamespacePrefix(env: map<string, string>) returns (nsPrefix: string)
    ensures ValidNamespacePrefix(nsPrefix)
    ensures nsPrefix == Getenv(env, NamespacePrefixKey) <==> ValidNamespacePrefix(Getenv(env, NamespacePrefixKey))
    ensures !ValidNamespacePrefix(Getenv(env, NamespacePrefixKey)) ==> nsPrefix == DefaultNamespacePrefix
  {
    nsPrefix := Getenv(env, NamespacePrefixKey);
    if ByteLen(nsPrefix) > 200 || ByteLen(nsPrefix) == 0 {
      nsPrefix := DefaultNamespacePrefix;
    }
  }

  /** `nsKey(t)`: the context key of the namespace slot; the test plays no part in it. */
  function NsKey(test: string): (key: string)
    ensures key != ProgressReporterCtxKey
    ensures |key| > 0
  {
    "test_namespace"
  }

  /** Every test uses the same slot key, "test_namespace". */
  lemma NsKeySharedByAllTests(a: string, b: string)
    ensures NsKey(a) == NsKey(b)
    ensures NsKey(a) == "test_namespace"
  {
  }

  /**
   * `createNSForTest`: `ns` is the name `envconf.RandomName` produced from the
   * run ID and `createResult` the answer of the Create call. The slot is
   * written before Create is issued, so it holds `ns` whether or not Create
   * succeeds; no other key of the context changes.
   */
  method CreateNSForTest(ctx: Context, test: string, ns: string, createResult: Error)
    returns (ctx': Context, request: Request, err: Error)
    ensures Value(ctx', NsKey(test)) == Str(ns)
    ensures forall key :: key != NsKey(test) ==> Value(ctx', key) == Value(ctx, key)
    ensures request == Create(ns)
    ensures err == createResult
  {
    ctx' := WithValue(ctx, NsKey(test), Str(ns));
    request := Create(ns);
    err := createResult;
  }

  /**
   * `deleteNSForTest`: the name deleted is whatever the slot holds, rendered
   * by `fmt.Sprint`; an empty slot renders as "<nil>". The context comes back
   * unchanged and the error is the answer of the Delete call.
   */
  method DeleteNSForTest(ctx: Context, test: string, deleteResult: Error)
    returns (ctx': Context, request: Request, err: Error)
    ensures ctx' == ctx
    ensures request.Delete?
    ensures Value(ctx, NsKey(test)).Str? ==> request.name == Value(ctx, NsKey(test)).s
    ensures Value(ctx, NsKey(test)) == Nil ==> request.name == "<nil>"
    ensures Value(ctx, NsKey(test)).Other? ==> request.name == Value(ctx, NsKey(test)).formatted
    ensures err == deleteResult
  {
    var ns := Sprint(Value(ctx, NsKey(test)));
    request := Delete(ns);
    ctx' := ctx;
    err := deleteResult;
  }

  /**
   * The slot round trip: after the slot is written with `ns` and any number
   * of values are added under other keys, the name read back is `ns`.
   */
  lemma {:induction false} SlotRoundTrip(ctx: Context, test: string, ns: string, later: seq<(string, Any)>)
    requires forall i :: 0 <= i < |later| ==> later[i].0 != NsKey(test)
    ensures Sprint(Value(WithValues(WithValue(ctx, NsKey(test), Str(ns)), later), NsKey(test))) == ns
  {
    WithValuesKeepsValue(WithValue(ctx, NsKey(test), Str(ns)), later, NsKey(test));
  }

  /**
   * Since the key does not depend on the test, a context that carries two
   * slot writes yields the newer name to either test's lookup: correctness
   * rests on each test having its own context chain.
   */
  lemma NewerSlotShadows(ctx: Context, a: string, b: string, nsA: string, nsB: string)
    ensures Value(WithValue(WithValue(ctx, NsKey(a), Str(nsA)), NsKey(b), Str(nsB)), NsKey(a)) == Str(nsB)
  {
  }

  /** Create followed by Delete on the context Create returned deletes exactly the created name. */
  method CreateThenDelete(ctx: Context, test: string, ns: string, createResult: Error, deleteResult: Error)
    returns (created: Request, deleted: Request)
    ensures created == Create(ns)
    ensures deleted == Delete(created.name)
  {
    var ctx1, ctx2, err;
    ctx1, created, err := CreateNSForTest(ctx, test, ns, createResult);
    ctx2, deleted, err := DeleteNSForTest(ctx1, test, deleteResult);
  }
}
