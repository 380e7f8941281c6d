/**
 * The home dashboard store (src/store/homeStore.ts).
 *
 * `load()` raises `loading`, awaits the dashboard fetch, replaces `data` on
 * success, and lowers `loading` in a `finally` step. There is no `catch`: a
 * rejected fetch is passed on to the caller. How the fetch settles is a
 * parameter. Every `set` publishes a new state to the store's subscribers;
 * the model records the published states in a ghost log.
 */
module Home {
  import opened Wrappers
  import opened SkinTypes

  /** One published state of the store. */
  datatype Snapshot = Snapshot(data: Option<HomeResponse>, loading: bool)

  /** The states `load()` publishes, in order, starting from `before`. */
  function LoadTrace(before: Snapshot, fetched: Result<HomeResponse>): (r: seq<Snapshot>)
    ensures 2 <= |r|
    // the first publication raises the flag before the fetch is awaited
    ensures r[0] == Snapshot(before.data, true)
    // the flag stays raised until the final publication, which lowers it
    ensures forall i :: 0 <= i < |r| - 1 ==> r[i].loading
    ensures !r[|r| - 1].loading
    // success replaces the data wholesale; failure keeps the old data and publishes no data
    ensures fetched.Ok? ==> r[|r| - 1].data == Some(fetched.value)
    ensures fetched.Err? ==> forall i :: 0 <= i < |r| ==> r[i].data == before.data
  {
    var raised := Snapshot(before.data, true);
    match fetched
    case Ok(d) => [raised, Snapshot(Some(d), true), Snapshot(Some(d), false)]
    case Err(_) => [raised, Snapshot(before.data, false)]
  }

  /** How `load()`'s own promise settles: as the fetch did. */
  function LoadOutcome(fetched: Result<HomeResponse>): (r: Outcome)
    ensures r.Resolved? <==> fetched.Ok?
    ensures fetched.Err? ==> r == Rejected(fetched.reason)
  {
    match fetched
    case Ok(_) => Resolved
    case Err(reason) => Rejected(reason)
  }

  /** Running `load()` twice with the same successful fetch ends where one run does. */
  lemma LoadIdempotentOnSameData(before: Snapshot, d: HomeResponse)
    ensures var once := LoadTrace(before, Ok(d));
            var twice := LoadTrace(once[|once| - 1], Ok(d));
            twice[|twice| - 1] == once[|once| - 1]
  {
  }

  class HomeStore {
    var data: Option<HomeResponse>
    var loading: bool
    /** Every state the store has published, oldest first. */
    ghost var published: seq<Snapshot>

    function Current(): Snapshot
      reads this
    {
      Snapshot(data, loading)
    }

    /** Between operations the flag is down and the last publication is the current state. */
    ghost predicate Valid()
      reads this
    {
      && !loading
      && (published != [] ==> published[|published| - 1] == Current())
    }

    constructor ()
      ensures Valid()
      ensures data.None? && !loading && published == []
    {
      data := None;
      loading := false;
      published := [];
    }

    method Load(fetched: Result<HomeResponse>) returns (r: Outcome)
      requires Valid()
      modifies this
      ensures Valid()
      ensures published == old(published) + LoadTrace(old(Current()), fetched)
      ensures Current() == LoadTrace(old(Current()), fetched)[|LoadTrace(old(Current()), fetched)| - 1]
      ensures r == LoadOutcome(fetched)
      ensures !loading
      ensures data == (if fetched.Ok? then Some(fetched.value) else old(data))
    {
      loading := true;
      published := published + [Current()];
      if fetched.Ok? {
        data := Some(fetched.value);
        published := published + [Current()];
        r := Resolved;
      } else {
        r := Rejected(fetched.reason);
      }
      // finally
      loading := false;
      published := published + [Current()];
    }
  }
}
