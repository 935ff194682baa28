/**
 * The per-test hooks TestMain registers. BeforeEachTest reports the test as
 * started and creates its namespace; AfterEachTest reports the test as
 * stopped and deletes the namespace named in the context it is given. What
 * the progress reporter and the resource client receive is recorded as a
 * list of events.
 */
module Hooks {
  import opened GoContext
  import opened Namespaces

  /** A notification to the progress reporter, or a call on the resource client. */
  datatype Event =
    | StartTest(test: string)
    | StopTest(test: string, failed: bool, skipped: bool)
    | Api(request: Request)

  /** The BeforeEachTest hook: `StartTest`, then `createNSForTest`. */
  method BeforeEachTest(ctx: Context, test: string, ns: string, createResult: Error)
    returns (ctx': Context, events: seq<Event>, err: Error)
    ensures events == [StartTest(test), Api(Create(ns))]
    ensures Value(ctx', NsKey(test)) == Str(ns)
    ensures forall key :: key != NsKey(test) ==> Value(ctx', key) == Value(ctx, key)
    // corollary of the clause above, since NsKey is never the reporter key
    ensures Value(ctx', ProgressReporterCtxKey) == Value(ctx, ProgressReporterCtxKey)
    ensures err == createResult
  {
    events := [StartTest(test)];
    var request;
    ctx', request, err := CreateNSForTest(ctx, test, ns, createResult);
    events := events + [Api(request)];
  }

  /** The AfterEachTest hook: `StopTest` with the test's outcome flags, then `deleteNSForTest`. */
  method AfterEachTest(ctx: Context, test: string, failed: bool, skipped: bool, deleteResult: Error)
    returns (ctx': Context, events: seq<Event>, err: Error)
    ensures ctx' == ctx
    ensures events == [StopTest(test, failed, skipped), Api(Delete(Sprint(Value(ctx, NsKey(test)))))]
    // the two cases of the clause above that matter: a stored name, and an empty slot
    ensures forall name :: Value(ctx, NsKey(test)) == Str(name) ==> events[1] == Api(Delete(name))
    ensures Value(ctx, NsKey(test)) == Nil ==> events[1] == Api(Delete("<nil>"))
    ensures err == deleteResult
  {
    events := [StopTest(test, failed, skipped)];
    var request;
    ctx', request, err := DeleteNSForTest(ctx, test, deleteResult);
    events := events + [Api(request)];
  }

  /**
   * One test between the two hooks, when the framework runs both. `steps`
   * are the values the test body adds to the context it hands on to
   * AfterEachTest, so that context extends the one BeforeEachTest returned.
   * The namespace deleted is whatever the slot holds then:
   * the created one when no step uses the slot key, and otherwise the value
   * of the last step that does. The reporter sees the start before the stop.
   */
  method RunTest(ctx: Context, test: string, ns: string, createResult: Error,
                 steps: seq<(string, Any)>, failed: bool, skipped: bool, deleteResult: Error)
    returns (events: seq<Event>, createErr: Error, deleteErr: Error)
    ensures createErr == createResult && deleteErr == deleteResult
    ensures |events| == 4
    ensures events[..2] == [StartTest(test), Api(Create(ns))]
    ensures events[2] == StopTest(test, failed, skipped)
    ensures events[3].Api? && events[3].request.Delete?
    ensures (forall i :: 0 <= i < |steps| ==> steps[i].0 != NsKey(test)) ==> events[3] == Api(Delete(ns))
    ensures forall i :: IsLastWrite(steps, NsKey(test), i) ==> events[3] == Api(Delete(Sprint(steps[i].1)))
  {
    var before, after;
    var ctx1, ctx3;
    ctx1, before, createErr := BeforeEachTest(ctx, test, ns, createResult);
    var ctx2 := WithValues(ctx1, steps);
    if forall i :: 0 <= i < |steps| ==> steps[i].0 != NsKey(test) {
      WithValuesKeepsValue(ctx1, steps, NsKey(test));
    }
    forall i | IsLastWrite(steps, NsKey(test), i)
      ensures Value(ctx2, NsKey(test)) == steps[i].1
    {
      WithValuesNewestWins(ctx1, steps, NsKey(test), i);
    }
    ctx3, after, deleteErr := AfterEachTest(ctx2, test, failed, skipped, deleteResult);
    events := before + after;
  }
}
