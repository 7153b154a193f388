/**
 * The `useData` hook: three state cells (`data`, `loading`, `error`), a fetch
 * started by an effect that re-runs when its dependencies change and whose
 * result is dropped once that run's `isMounted` flag has been cleared, and an
 * unguarded `refetch`. Fetches are discrete start and settle events applied to
 * one hook instance, one at a time.
 */
module UseData {
  import opened Wrappers
  import opened Js
  import opened Api

  const DefaultError := "An error occurred"

  /**
   * `err.response?.data?.error || err.message || 'An error occurred'`: the
   * first truthy candidate, so the stored error is never empty.
   */
  function ErrorMessage(failure: HttpFailure): (r: JsValue)
    ensures Truthy(r)
    ensures Truthy(failure.responseError) ==> r == failure.responseError
    ensures !Truthy(failure.responseError) && failure.message != "" ==> r == Str(failure.message)
  {
    if Truthy(failure.responseError) then failure.responseError
    else if failure.message != "" then Str(failure.message)
    else Str(DefaultError)
  }

  /** The hook picks the same error as the envelope unless both the server's error and the message are empty. */
  lemma HookErrorMatchesEnvelope<T>(failure: HttpFailure)
    requires Truthy(failure.responseError) || failure.message != ""
    ensures ToEnvelope<T>(Rejected(failure)).error == Some(ErrorMessage(failure))
  {
  }

  /** The three state cells; `None` stands for `null`. */
  datatype HookState<T> = HookState(data: Option<T>, loading: bool, error: Option<JsValue>)

  /** The first render: `data = null`, `loading = true`, `error = null`. */
  function Initial<T>(): (s: HookState<T>)
    ensures s.data.None? && s.loading && s.error.None?
  {
    HookState(None, true, None)
  }

  /** The synchronous part of a fetch: `setLoading(true)` and `setError(null)`. */
  function Begin<T>(s: HookState<T>): HookState<T> {
    s.(loading := true, error := None)
  }

  /** A fetch that resolved and is applied: `setData(response.data)`, then `setLoading(false)`. */
  function Succeed<T>(s: HookState<T>, value: T): HookState<T> {
    s.(data := Some(value), loading := false)
  }

  /** A fetch that was rejected and is applied: `setError(...)`, then `setLoading(false)`. */
  function Fail<T>(s: HookState<T>, failure: HttpFailure): HookState<T> {
    s.(error := Some(ErrorMessage(failure)), loading := false)
  }

  /** Applying a settled fetch. */
  function Settle<T>(s: HookState<T>, outcome: Outcome<T>): (r: HookState<T>)
    ensures !r.loading
    ensures outcome.Resolved? ==> r.data == Some(outcome.data) && r.error == s.error
    ensures outcome.Rejected? ==> r.data == s.data && r.error.Some? && Truthy(r.error.value)
    ensures outcome.Rejected? ==> r.error == Some(ErrorMessage(outcome.failure))
  {
    match outcome
    case Resolved(value) => Succeed(s, value)
    case Rejected(failure) => Fail(s, failure)
  }

  /** Starting a fetch leaves the data alone, shows the spinner and clears the error. */
  lemma BeginKeepsData<T>(s: HookState<T>)
    ensures Begin(s).data == s.data && Begin(s).loading && Begin(s).error.None?
  {
  }

  /** A fetch started and then settled successfully ends with the data, no spinner and no error. */
  lemma StartThenSucceed<T>(s: HookState<T>, value: T)
    ensures Settle(Begin(s), Resolved(value)) == HookState(Some(value), false, None)
  {
  }

  /** A failed fetch keeps the data of an earlier one: data and error can both be non-null. */
  lemma FailureKeepsEarlierData<T>(value: T, failure: HttpFailure)
    ensures var s := Settle(Begin(Settle(Begin(Initial<T>()), Resolved(value))), Rejected(failure));
      s.data == Some(value) && s.error.Some? && !s.loading
  {
  }

  /** Which fetch settles: the one started by effect run `run`, or a `refetch`. */
  datatype Attempt = EffectRun(run: nat) | Refetch

  /** One instance of the hook. */
  class DataHook<T> {
    var data: Option<T>
    var loading: bool
    var error: Option<JsValue>
    /** The dependency list of the last effect run. */
    var deps: seq<int>
    /** How many times the effect has run. */
    var runs: nat
    /** The effect run whose `isMounted` flag is still true, if any. */
    var mountedRun: Option<nat>

    function State(): HookState<T>
      reads this
    {
      HookState(data, loading, error)
    }

    ghost predicate Valid()
      reads this
    {
      mountedRun.Some? ==> mountedRun.value < runs
    }

    /** Mounting: the initial state, then the effect's first run, which starts a fetch. */
    constructor (dependencies: seq<int>)
      ensures State() == Begin(Initial<T>())
      ensures deps == dependencies && runs == 1 && mountedRun == Some(0)
      ensures Valid()
    {
      data, loading, error := None, true, None;
      deps := dependencies;
      runs := 1;
      mountedRun := Some(0);
    }

    /**
     * A re-render with the current dependency list: when it differs from the
     * last one, the previous run's cleanup clears its flag and a new run
     * starts a fetch; otherwise nothing happens.
     */
    method Render(dependencies: seq<int>) returns (started: Option<nat>)
      requires Valid()
      modifies this
      ensures Valid()
      ensures dependencies == old(deps) ==>
        started.None? && State() == old(State()) && runs == old(runs) && mountedRun == old(mountedRun)
      ensures dependencies != old(deps) ==>
        started == Some(old(runs)) && State() == Begin(old(State())) && runs == old(runs) + 1 && mountedRun == started
      ensures deps == dependencies
    {
      started := None;
      if dependencies != deps {
        started := Some(runs);
        mountedRun := started;
        runs := runs + 1;
        loading, error := true, None;
      }
      deps := dependencies;
    }

    /** Unmounting: the cleanup clears the flag of the live run. */
    method Unmount()
      requires Valid()
      modifies this
      ensures Valid()
      ensures mountedRun.None? && State() == old(State()) && runs == old(runs) && deps == old(deps)
    {
      mountedRun := None;
    }

    /** `refetch()`: starts a fetch with no flag of its own. */
    method StartRefetch()
      requires Valid()
      modifies this
      ensures Valid()
      ensures State() == Begin(old(State()))
      ensures runs == old(runs) && mountedRun == old(mountedRun) && deps == old(deps)
    {
      loading := true;
      error := None;
    }

    /**
     * A fetch settles. An effect run's result is applied only while that run's
     * flag is still true; a refetch's result is always applied.
     */
    method Complete(attempt: Attempt, outcome: Outcome<T>)
      requires Valid()
      modifies this
      ensures Valid()
      ensures runs == old(runs) && mountedRun == old(mountedRun) && deps == old(deps)
      ensures attempt.Refetch? || old(mountedRun) == Some(attempt.run) ==> State() == Settle(old(State()), outcome)
      ensures attempt.EffectRun? && old(mountedRun) != Some(attempt.run) ==> State() == old(State())
    {
      var applies := match attempt
        case Refetch => true
        case EffectRun(run) => mountedRun == Some(run);
      if applies {
        match outcome
        case Resolved(value) =>
          data := Some(value);
        case Rejected(failure) =>
          error := Some(ErrorMessage(failure));
      }
      if applies {
        loading := false;
      }
    }
  }

  /** After unmounting, a late effect result changes nothing, but a late refetch result still lands. */
  method LateResultsAfterUnmount<T>(value: T)
  {
    var hook := new DataHook<T>([]);
    hook.Unmount();
    var before := hook.State();
    hook.Complete(EffectRun(0), Resolved(value));
    assert hook.State() == before;
    hook.Complete(Refetch, Resolved(value));
    assert hook.data == Some(value) && !hook.loading;
  }

  /** A re-render with new dependencies orphans the older run: its result is dropped. */
  method StaleRunIsDropped<T>(stale: T, newer: T)
  {
    var hook := new DataHook<T>([10, 0]);
    var started := hook.Render([10, 10]);
    assert started == Some(1);
    hook.Complete(EffectRun(1), Resolved(newer));
    hook.Complete(EffectRun(0), Resolved(stale));
    assert hook.data == Some(newer);
  }

  /** `useNewsData(limit = 10, offset = 0)`: fetches `getNews(limit, offset)` and re-runs on `[limit, offset]`. */
  function NewsHook(limit: int := 10, offset: int := 0): (r: (seq<int>, string))
    ensures r.0 == [limit, offset]
    ensures ParsePagedPath("/news", r.1) == Some((limit, offset))
  {
    PagedPathRoundTrip("/news", limit, offset);
    ([limit, offset], NewsPath(limit, offset))
  }

  /** `useGuestbookData(limit = 20, offset = 0)`: the same over `getGuestbook`. */
  function GuestbookHook(limit: int := 20, offset: int := 0): (r: (seq<int>, string))
    ensures r.0 == [limit, offset]
    ensures ParsePagedPath("/guestbook", r.1) == Some((limit, offset))
  {
    PagedPathRoundTrip("/guestbook", limit, offset);
    ([limit, offset], GuestbookPath(limit, offset))
  }

  /** The dependency list of the other hooks (station, equipment, QSL cards, achievements, gallery). */
  const NoDependencies: seq<int> := []

  /** A paginated hook re-fetches exactly when the limit or the offset changes. */
  lemma PageChangeRefetches(limit: int, offset: int, limit': int, offset': int)
    ensures NewsHook(limit, offset).0 != NewsHook(limit', offset').0 <==> limit != limit' || offset != offset'
    ensures GuestbookHook(limit, offset).0 != GuestbookHook(limit', offset').0 <==> limit != limit' || offset != offset'
  {
    if limit != limit' || offset != offset' {
      assert NewsHook(limit, offset).0[0] != NewsHook(limit', offset').0[0]
        || NewsHook(limit, offset).0[1] != NewsHook(limit', offset').0[1];
    }
  }

  /** A hook without dependencies fetches once: re-rendering never starts another run. */
  method FetchesOnce<T>()
  {
    var hook := new DataHook<T>(NoDependencies);
    var started := hook.Render(NoDependencies);
    assert started.None? && hook.runs == 1;
  }
}
