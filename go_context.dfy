/**
 * The parts of Go's `context` and `fmt` packages the test bootstrap relies on.
 * A context is an immutable chain: `context.WithValue` wraps its parent with
 * one more key/value pair, and `ctx.Value(key)` walks from the newest pair to
 * the oldest and answers with the first match, or `nil` when none matches.
 * Every key the bootstrap uses is a Go `string`, so keys are strings here.
 */
module GoContext {

  /**
   * A value of Go's `any` type as far as the bootstrap observes it: `nil`, a
   * string, or some other value (the progress reporter, say) of which only
   * its `fmt` rendering matters.
   */
  datatype Any = Nil | Str(s: string) | Other(formatted: string)

  /** `fmt.Sprint(v)` with a single operand. */
  function Sprint(v: Any): string {
    match v
    case Nil => "<nil>"
    case Str(s) => s
    case Other(f) => f
  }

  /** `context.Background()` and the chain `context.WithValue` builds on it. */
  datatype Context = Background | WithValue(parent: Context, key: string, val: Any)

  /** `ctx.Value(key)`: the newest value stored under `key`, or `nil`. */
  function Value(ctx: Context, key: string): Any {
    match ctx
    case Background => Nil
    case WithValue(parent, k, v) => if k == key then v else Value(parent, key)
  }

  /** The key/value view of a context: later bindings replace earlier ones. */
  function Bindings(ctx: Context): map<string, Any> {
    match ctx
    case Background => map[]
    case WithValue(parent, k, v) => Bindings(parent)[k := v]
  }

  /** Looking a key up in the chain agrees with the key/value view. */
  lemma {:induction false} ValueMatchesBindings(ctx: Context, key: string)
    ensures key in Bindings(ctx) ==> Value(ctx, key) == Bindings(ctx)[key]
    ensures key !in Bindings(ctx) ==> Value(ctx, key) == Nil
  {
    match ctx
    case Background =>
    case WithValue(parent, k, v) =>
      if k != key {
        ValueMatchesBindings(parent, key);
      }
  }

  /** The context obtained by `WithValue` on each entry in turn, first entry first. */
  function WithValues(ctx: Context, entries: seq<(string, Any)>): Context
    decreases |entries|
  {
    if entries == [] then ctx
    else WithValues(WithValue(ctx, entries[0].0, entries[0].1), entries[1..])
  }

  /** Entries stored under other keys leave the value of `key` as it was. */
  lemma {:induction false} WithValuesKeepsValue(ctx: Context, entries: seq<(string, Any)>, key: string)
    requires forall i :: 0 <= i < |entries| ==> entries[i].0 != key
    ensures Value(WithValues(ctx, entries), key) == Value(ctx, key)
    decreases |entries|
  {
    if entries != [] {
      var next := WithValue(ctx, entries[0].0, entries[0].1);
      assert Value(next, key) == Value(ctx, key);
      forall i | 0 <= i < |entries[1..]| ensures entries[1..][i].0 != key {
        assert entries[1..][i] == entries[i + 1];
      }
      WithValuesKeepsValue(next, entries[1..], key);
    }
  }

  /** Entry `i` is the last of `entries` stored under `key`. */
  predicate IsLastWrite(entries: seq<(string, Any)>, key: string, i: int) {
    0 <= i < |entries| && entries[i].0 == key &&
    forall j :: i < j < |entries| ==> entries[j].0 != key
  }

  /** The newest entry for a key is the one `Value` finds, whatever was stored before. */
  lemma {:induction false} WithValuesNewestWins(ctx: Context, entries: seq<(string, Any)>, key: string, i: nat)
    requires IsLastWrite(entries, key, i)
    ensures Value(WithValues(ctx, entries), key) == entries[i].1
    decreases |entries|
  {
    var next := WithValue(ctx, entries[0].0, entries[0].1);
    forall j | 0 <= j < |entries[1..]| && (i == 0 || i - 1 < j) ensures entries[1..][j].0 != key {
      assert entries[1..][j] == entries[j + 1];
    }
    if i == 0 {
      WithValuesKeepsValue(next, entries[1..], key);
    } else {
      assert entries[1..][i - 1] == entries[i];
      WithValuesNewestWins(next, entries[1..], key, i - 1);
    }
  }

  /** Two contexts that agree on a key still agree on it after the same series of `WithValue` calls. */
  lemma {:induction false} WithValuesPreservesAgreement(a: Context, b: Context, entries: seq<(string, Any)>, key: string)
    requires Value(a, key) == Value(b, key)
    ensures Value(WithValues(a, entries), key) == Value(WithValues(b, entries), key)
    decreases |entries|
  {
    if entries != [] {
      WithValuesPreservesAgreement(WithValue(a, entries[0].0, entries[0].1), WithValue(b, entries[0].0, entries[0].1), entries[1..], key);
    }
  }
}
