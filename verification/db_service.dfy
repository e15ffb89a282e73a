/** The ledger store of services/dbService.ts, local-storage backend.

    The store keeps two persisted values, the transaction list (`DB_KEY`)
    and the last-reset marker (`LAST_RESET_KEY`), plus the in-memory
    `initialized` flag and a cache. Every operation first loads the list
    (`getAll`), which runs the once-per-instance initialisation and may
    reseed the list with demo data; every successful mutation writes the
    list back and dispatches one `db-update` event.

    What the clock and the demo-data generator supply during a call is the
    `Env` parameter; a new record's id and timestamp are parameters; a
    write that the browser storage refuses is the `fault` parameter. */
module DbService {
  import opened LedgerTypes
  import opened Seqs
  import opened Text

  const DataVersion: string := "v2"

  /** The marker `init` stores and checks: `${today}-${dataVersion}`. */
  function Versioned(today: string): (m: string)
    ensures |m| == |today| + 3 && m[..|today|] == today
  {
    today + "-" + DataVersion
  }

  /** What the environment supplies while one store call runs: today's
      ISO date and the list the demo-data generator would produce if the
      call reseeds. */
  datatype Env = Env(today: string, demo: seq<Transaction>)

  /** The persisted values and the instance flag. `None` is an absent
      local-storage key. */
  datatype StoreState = StoreState(
    initialized: bool,
    marker: Option<string>,
    stored: Option<seq<Transaction>>)

  /** The outcome of one store operation: the new state, the events it
      dispatched (in order) and its return value. */
  datatype Step<R> = Step(state: StoreState, emitted: seq<Event>, result: R)

  /** The store's query filter; a field that is `None` or `""` is not
      applied (the source tests each one for truthiness). */
  datatype Query = Query(
    dateStart: Option<string>,
    dateEnd: Option<string>,
    txType: Option<TxType>,
    category: Option<string>)

  predicate Present(o: Option<string>) {
    o.Some? && o.value != ""
  }

  /** `init()`: on the first call of an instance, reseed unless the stored
      marker is today's versioned marker, then store that marker. */
  function InitSpec(s: StoreState, env: Env): (r: Step<()>)
    ensures r.state.initialized
    ensures s.initialized ==> r == Step(s, [], ())
    ensures !s.initialized ==> r.state.marker == Some(Versioned(env.today))
    ensures !s.initialized ==>
      (r.emitted == [DbUpdate] <==> s.marker != Some(Versioned(env.today)))
    ensures r.emitted == [] || r.emitted == [DbUpdate]
    ensures r.emitted == [] ==> r.state.stored == s.stored
    ensures r.emitted != [] ==> r.state.stored == Some(env.demo)
  {
    if s.initialized then Step(s, [], ())
    else if s.marker != Some(Versioned(env.today)) then
      Step(StoreState(true, Some(Versioned(env.today)), Some(env.demo)), [DbUpdate], ())
    else
      Step(s.(initialized := true), [], ())
  }

  /** `getAll()`: initialise, reseed if the list is absent, and return the
      stored list. */
  function LoadSpec(s: StoreState, env: Env): (r: Step<seq<Transaction>>)
    ensures r.state.initialized && r.state.stored == Some(r.result)
    ensures r.emitted == [] || r.emitted == [DbUpdate]
    ensures r.emitted == [] ==> s.stored == Some(r.result)
    ensures r.emitted != [] ==> r.result == env.demo
    ensures s.initialized && s.stored.Some? ==> r == Step(s, [], s.stored.value)
    ensures !s.initialized && s.marker != Some(Versioned(env.today)) ==>
              r.emitted == [DbUpdate] && r.result == env.demo
  {
    var i := InitSpec(s, env);
    if i.state.stored.None? then
      Step(i.state.(stored := Some(env.demo)), i.emitted + [DbUpdate], env.demo)
    else
      Step(i.state, i.emitted, i.state.stored.value)
  }

  /** The position `findIndex` returns, `None` for -1. */
  function FindIndex(s: seq<Transaction>, id: string): (r: Option<nat>)
    ensures r.None? <==> forall j :: 0 <= j < |s| ==> s[j].id != id
    ensures r.Some? ==> r.value < |s| && s[r.value].id == id &&
                        forall j :: 0 <= j < r.value ==> s[j].id != id
    decreases |s|
  {
    if s == [] then None
    else if s[0].id == id then Some(0)
    else match FindIndex(s[1..], id)
      case None => None
      case Some(k) => Some(k + 1)
  }

  function AddSpec(s: StoreState, env: Env, f: NewFields, id: string, now: int,
                   fault: Option<string>): Step<Result<Transaction, string>>
  {
    var l := LoadSpec(s, env);
    var tx := Create(f, id, now);
    if fault.Some? then Step(l.state, l.emitted, Err(fault.value))
    else Step(l.state.(stored := Some(l.result + [tx])), l.emitted + [DbUpdate], Ok(tx))
  }

  function UpdateSpec(s: StoreState, env: Env, id: string, p: Patch,
                      fault: Option<string>): Step<Result<Option<Transaction>, string>>
  {
    var l := LoadSpec(s, env);
    match FindIndex(l.result, id)
    case None => Step(l.state, l.emitted, Ok(None))
    case Some(k) =>
      var u := Merge(l.result[k], p);
      if fault.Some? then Step(l.state, l.emitted, Err(fault.value))
      else Step(l.state.(stored := Some(l.result[k := u])), l.emitted + [DbUpdate], Ok(Some(u)))
  }

  function KeepOthers(id: string): Transaction -> bool {
    (t: Transaction) => t.id != id
  }

  function DeleteSpec(s: StoreState, env: Env, id: string,
                      fault: Option<string>): Step<Result<bool, string>>
  {
    var l := LoadSpec(s, env);
    var filtered := Filter(l.result, KeepOthers(id));
    if |filtered| == |l.result| then Step(l.state, l.emitted, Ok(false))
    else if fault.Some? then Step(l.state, l.emitted, Err(fault.value))
    else Step(l.state.(stored := Some(filtered)), l.emitted + [DbUpdate], Ok(true))
  }

  function AfterStart(q: Query): Transaction -> bool
    requires q.dateStart.Some?
  {
    (t: Transaction) => LexLe(q.dateStart.value, t.date)
  }

  function BeforeEnd(q: Query): Transaction -> bool
    requires q.dateEnd.Some?
  {
    (t: Transaction) => LexLe(t.date, q.dateEnd.value)
  }

  function OfType(q: Query): Transaction -> bool
    requires q.txType.Some?
  {
    (t: Transaction) => t.txType == q.txType.value
  }

  function InCategory(q: Query): Transaction -> bool
    requires q.category.Some?
  {
    (t: Transaction) => Contains(Lower(t.category), Lower(q.category.value))
  }

  /** The successive filters of `query`, in the source's order. */
  function Matching(all: seq<Transaction>, q: Query): seq<Transaction> {
    var d1 := if Present(q.dateStart) then Filter(all, AfterStart(q)) else all;
    var d2 := if Present(q.dateEnd) then Filter(d1, BeforeEnd(q)) else d1;
    var d3 := if q.txType.Some? then Filter(d2, OfType(q)) else d2;
    if Present(q.category) then Filter(d3, InCategory(q)) else d3
  }

  /** The condition a record must meet to be in a query's result. */
  predicate Matches(q: Query, t: Transaction) {
    (Present(q.dateStart) ==> LexLe(q.dateStart.value, t.date)) &&
    (Present(q.dateEnd) ==> LexLe(t.date, q.dateEnd.value)) &&
    (q.txType.Some? ==> t.txType == q.txType.value) &&
    (Present(q.category) ==> Contains(Lower(t.category), Lower(q.category.value)))
  }

  function QuerySpec(s: StoreState, env: Env, q: Query): Step<seq<Transaction>> {
    var l := LoadSpec(s, env);
    Step(l.state, l.emitted, Matching(l.result, q))
  }

  /** `forceReset()`: reseed and store today's date without the version. */
  function ForceResetSpec(s: StoreState, env: Env): Step<()> {
    Step(s.(stored := Some(env.demo), marker := Some(env.today)), [DbUpdate], ())
  }

  // ---------------------------------------------------------------------
  // Properties of the operations
  // ---------------------------------------------------------------------

  /** `add` appends exactly one record, built from the given fields with
      the given id and timestamp, after the loaded list and dispatches one
      `db-update`; a refused write changes nothing beyond the load. */
  lemma AddAppendsOne(s: StoreState, env: Env, f: NewFields, id: string, now: int,
                      fault: Option<string>)
    ensures var r := AddSpec(s, env, f, id, now, fault);
            var l := LoadSpec(s, env);
            match r.result
            case Ok(tx) =>
              fault.None? && r.state.stored.Some? &&
              var after := r.state.stored.value;
              |after| == |l.result| + 1 && after[..|l.result|] == l.result &&
              after[|l.result|] == tx && tx.id == id && tx.createdAt == now &&
              tx.date == f.date && tx.txType == f.txType && tx.category == f.category &&
              tx.amount == f.amount && tx.description == f.description &&
              r.emitted == l.emitted + [DbUpdate] && r.state.marker == l.state.marker
            case Err(msg) =>
              fault == Some(msg) && r.state == l.state && r.emitted == l.emitted
  {
    var l := LoadSpec(s, env);
    if fault.None? {
      var tx := Create(f, id, now);
      assert (l.result + [tx])[..|l.result|] == l.result;
    }
  }

  /** On a loaded store `add` touches nothing but the end of the list. */
  lemma AddOnLoadedStore(s: StoreState, env: Env, f: NewFields, id: string, now: int)
    requires s.initialized && s.stored.Some?
    ensures AddSpec(s, env, f, id, now, None).state ==
            s.(stored := Some(s.stored.value + [Create(f, id, now)]))
    ensures AddSpec(s, env, f, id, now, None).emitted == [DbUpdate]
  {
  }

  /** `update` of an id that is not present returns null and changes
      neither the list nor the events beyond what loading did. */
  lemma UpdateMissingIsNoop(s: StoreState, env: Env, id: string, p: Patch,
                            fault: Option<string>)
    requires forall t :: t in LoadSpec(s, env).result ==> t.id != id
    ensures UpdateSpec(s, env, id, p, fault) ==
            Step(LoadSpec(s, env).state, LoadSpec(s, env).emitted, Ok(None))
  {
    var l := LoadSpec(s, env);
    assert forall j :: 0 <= j < |l.result| ==> l.result[j] in l.result;
  }

  /** `update` of a present id replaces only the first record with that id,
      by the record overlaid with the patch: length, ids, timestamps and
      every other position are kept, and one `db-update` is dispatched. */
  lemma UpdatePresentReplacesOne(s: StoreState, env: Env, id: string, p: Patch)
    requires exists t :: t in LoadSpec(s, env).result && t.id == id
    ensures var l := LoadSpec(s, env);
            var r := UpdateSpec(s, env, id, p, None);
            r.result.Ok? && r.result.value.Some? && r.state.stored.Some? &&
            var after := r.state.stored.value;
            var u := r.result.value.value;
            |after| == |l.result| && r.emitted == l.emitted + [DbUpdate] &&
            u.id == id &&
            exists k :: 0 <= k < |after| && l.result[k].id == id &&
              (forall j :: 0 <= j < k ==> l.result[j].id != id) &&
              after[k] == u && u == Merge(l.result[k], p) &&
              u.createdAt == l.result[k].createdAt &&
              forall j :: 0 <= j < |after| && j != k ==> after[j] == l.result[j]
  {
    var l := LoadSpec(s, env);
    var t :| t in l.result && t.id == id;
    var i :| 0 <= i < |l.result| && l.result[i] == t;
    assert FindIndex(l.result, id).Some?;
    var k := FindIndex(l.result, id).value;
    var u := Merge(l.result[k], p);
    var after := l.result[k := u];
    assert UpdateSpec(s, env, id, p, None) ==
           Step(l.state.(stored := Some(after)), l.emitted + [DbUpdate], Ok(Some(u)));
    assert after[k] == u;
  }

  /** `delete` returns false and changes nothing when no record has the id;
      otherwise it removes every record with the id, keeps the others in
      order, dispatches one `db-update` and returns true. */
  lemma DeleteSpecMeaning(s: StoreState, env: Env, id: string)
    ensures var l := LoadSpec(s, env);
            var r := DeleteSpec(s, env, id, None);
            (r.result == Ok(false) <==> forall t :: t in l.result ==> t.id != id) &&
            (r.result == Ok(false) ==> r.state == l.state && r.emitted == l.emitted) &&
            (r.result == Ok(true) ==>
               r.state.stored.Some? &&
               r.state.stored.value == Filter(l.result, KeepOthers(id)) &&
               (forall t :: t in r.state.stored.value ==> t.id != id) &&
               IsSubsequence(r.state.stored.value, l.result) &&
               r.emitted == l.emitted + [DbUpdate])
  {
    var l := LoadSpec(s, env);
    FilterKeepsAll(l.result, KeepOthers(id));
    FilterIsSubsequence(l.result, KeepOthers(id));
    if forall t :: t in l.result ==> t.id != id {
      assert forall i :: 0 <= i < |l.result| ==> KeepOthers(id)(l.result[i]);
    } else {
      var t :| t in l.result && t.id == id;
      var i :| 0 <= i < |l.result| && l.result[i] == t;
      assert !KeepOthers(id)(l.result[i]);
    }
  }

  /** A second `delete` of the same id returns false. */
  lemma DeleteTwice(s: StoreState, env: Env, id: string, env2: Env)
    requires DeleteSpec(s, env, id, None).result == Ok(true)
    ensures var s1 := DeleteSpec(s, env, id, None).state;
            DeleteSpec(s1, env2, id, None).result == Ok(false) &&
            DeleteSpec(s1, env2, id, None).emitted == []
  {
    DeleteSpecMeaning(s, env, id);
    var s1 := DeleteSpec(s, env, id, None).state;
    DeleteSpecMeaning(s1, env2, id);
  }

  /** The stage conditions of `query`, each true when its filter is off. */
  function StartOk(q: Query): Transaction -> bool {
    (t: Transaction) => Present(q.dateStart) ==> LexLe(q.dateStart.value, t.date)
  }

  function EndOk(q: Query): Transaction -> bool {
    (t: Transaction) => Present(q.dateEnd) ==> LexLe(t.date, q.dateEnd.value)
  }

  function TypeOk(q: Query): Transaction -> bool {
    (t: Transaction) => q.txType.Some? ==> t.txType == q.txType.value
  }

  function CategoryOk(q: Query): Transaction -> bool {
    (t: Transaction) => Present(q.category) ==> Contains(Lower(t.category), Lower(q.category.value))
  }

  /** A filter applied only when `on` is one filter by `on ==> p`. */
  lemma Stage(s: seq<Transaction>, on: bool, p: Transaction -> bool, w: Transaction -> bool)
    requires forall t :: w(t) == (on ==> p(t))
    ensures (if on then Filter(s, p) else s) == Filter(s, w)
  {
    if on {
      FilterExt(s, p, w);
    } else {
      FilterKeepsAll(s, w);
    }
  }

  /** The four stages of `query`, each written as an unconditional filter. */
  function Staged(all: seq<Transaction>, q: Query): seq<Transaction> {
    Filter(Filter(Filter(Filter(all, StartOk(q)), EndOk(q)), TypeOk(q)), CategoryOk(q))
  }

  lemma MatchingIsStaged(all: seq<Transaction>, q: Query)
    ensures Matching(all, q) == Staged(all, q)
  {
    var keep := (t: Transaction) => true;
    var d1 := if Present(q.dateStart) then Filter(all, AfterStart(q)) else all;
    Stage(all, Present(q.dateStart), if Present(q.dateStart) then AfterStart(q) else keep, StartOk(q));
    var d2 := if Present(q.dateEnd) then Filter(d1, BeforeEnd(q)) else d1;
    Stage(d1, Present(q.dateEnd), if Present(q.dateEnd) then BeforeEnd(q) else keep, EndOk(q));
    var d3 := if q.txType.Some? then Filter(d2, OfType(q)) else d2;
    Stage(d2, q.txType.Some?, if q.txType.Some? then OfType(q) else keep, TypeOk(q));
    Stage(d3, Present(q.category), if Present(q.category) then InCategory(q) else keep, CategoryOk(q));
  }

  lemma StagedIsFilter(all: seq<Transaction>, q: Query)
    ensures Staged(all, q) == Filter(all, (t: Transaction) => Matches(q, t))
  {
    var p12 := (t: Transaction) => StartOk(q)(t) && EndOk(q)(t);
    FilterFilter(all, StartOk(q), EndOk(q), p12);
    var p123 := (t: Transaction) => p12(t) && TypeOk(q)(t);
    FilterFilter(all, p12, TypeOk(q), p123);
    FilterFilter(all, p123, CategoryOk(q), (t: Transaction) => Matches(q, t));
  }

  /** The successive filters of `query` are one filter by `Matches`. */
  lemma MatchingIsFilter(all: seq<Transaction>, q: Query)
    ensures Matching(all, q) == Filter(all, (t: Transaction) => Matches(q, t))
  {
    MatchingIsStaged(all, q);
    StagedIsFilter(all, q);
  }

  /** `query` returns, in their stored order, exactly the loaded records
      that meet every given filter; an empty filter returns the whole
      loaded list. Loading is all the state change it makes. */
  lemma QueryMeaning(s: StoreState, env: Env, q: Query)
    ensures var l := LoadSpec(s, env);
            var r := QuerySpec(s, env, q);
            r.state == l.state && r.emitted == l.emitted &&
            IsSubsequence(r.result, l.result) &&
            (forall t :: t in r.result <==> t in l.result && Matches(q, t)) &&
            ((!Present(q.dateStart) && !Present(q.dateEnd) && q.txType.None? &&
              !Present(q.category)) ==> r.result == l.result)
  {
    var l := LoadSpec(s, env);
    MatchingIsFilter(l.result, q);
    FilterIsSubsequence(l.result, (t: Transaction) => Matches(q, t));
    FilterKeepsAll(l.result, (t: Transaction) => Matches(q, t));
  }

  /** `init` reseeds exactly when the stored marker is not today's
      versioned marker; a second `init` is a no-op. */
  lemma InitReseedsOnNewDay(s: StoreState, env: Env, env2: Env)
    requires !s.initialized
    ensures var i := InitSpec(s, env);
            ((i.emitted == [DbUpdate] && i.state.stored == Some(env.demo)) <==>
               s.marker != Some(Versioned(env.today))) &&
            InitSpec(i.state, env2) == Step(i.state, [], ())
  {
    var i := InitSpec(s, env);
    if s.marker != Some(Versioned(env.today)) {
      assert i.emitted == [DbUpdate];
    } else {
      assert i.emitted == [];
    }
  }

  /** After a store has been initialised on some day, a new instance
      (a page reload, which resets the in-memory flag) started on the same
      day keeps the stored list. */
  lemma SameDayReloadKeepsData(s: StoreState, env: Env, env2: Env)
    requires !s.initialized && env2.today == env.today
    ensures var after := LoadSpec(s, env).state;
            var reloaded := after.(initialized := false);
            LoadSpec(reloaded, env2) == Step(after, [], after.stored.value)
  {
  }

  /** `forceReset` stores plain `today`, which is never the marker `init`
      checks, so the next instance reseeds on the same day; the instance
      that reset, already initialised, keeps the reset data. */
  lemma ForceResetThenReloadReseeds(s: StoreState, env: Env, env2: Env)
    requires env2.today == env.today
    ensures var after := ForceResetSpec(s, env).state;
            var reloaded := after.(initialized := false);
            after.stored == Some(env.demo) && after.marker == Some(env.today) &&
            LoadSpec(reloaded, env2).emitted == [DbUpdate] &&
            LoadSpec(reloaded, env2).result == env2.demo
    ensures var after := ForceResetSpec(s, env).state;
            s.initialized ==> LoadSpec(after, env2) == Step(after, [], env.demo)
  {
    assert |Versioned(env.today)| != |env.today|;
  }

  // ---------------------------------------------------------------------
  // The store object
  // ---------------------------------------------------------------------

  class LedgerStore {
    var initialized: bool
    /** `localStorage[LAST_RESET_KEY]` */
    var marker: Option<string>
    /** `localStorage[DB_KEY]`, parsed */
    var stored: Option<seq<Transaction>>
    /** `cachedTransactions` */
    var cache: seq<Transaction>
    /** the window, as far as events go */
    const bus: EventBus

    function State(): StoreState
      reads this
    {
      StoreState(initialized, marker, stored)
    }

    /** A new instance over what local storage already holds. */
    constructor (persistedMarker: Option<string>, persistedList: Option<seq<Transaction>>,
                 window: EventBus)
      ensures State() == StoreState(false, persistedMarker, persistedList)
      ensures cache == [] && bus == window
    {
      initialized := false;
      marker := persistedMarker;
      stored := persistedList;
      cache := [];
      bus := window;
    }

    method Init(env: Env)
      modifies this, bus
      ensures State() == InitSpec(old(State()), env).state
      ensures bus.log == old(bus.log) + InitSpec(old(State()), env).emitted
      ensures cache == old(cache)
    {
      if initialized {
        return;
      }
      DoInit(env);
      initialized := true;
    }

    method DoInit(env: Env)
      modifies this, bus
      ensures initialized == old(initialized) && cache == old(cache)
      ensures marker == Some(Versioned(env.today))
      ensures old(marker) != Some(Versioned(env.today)) ==>
                stored == Some(env.demo) && bus.log == old(bus.log) + [DbUpdate]
      ensures old(marker) == Some(Versioned(env.today)) ==>
                stored == old(stored) && bus.log == old(bus.log)
    {
      var lastReset := marker;
      if lastReset != Some(Versioned(env.today)) {
        ResetWithDemoData(env.demo);
        marker := Some(Versioned(env.today));
      }
    }

    /** Replace the whole list by the generator's output. */
    method ResetWithDemoData(demo: seq<Transaction>)
      modifies this, bus
      ensures stored == Some(demo)
      ensures initialized == old(initialized) && marker == old(marker) && cache == old(cache)
      ensures bus.log == old(bus.log) + [DbUpdate]
    {
      stored := Some(demo);
      bus.Dispatch(DbUpdate);
    }

    method GetAll(env: Env) returns (all: seq<Transaction>)
      modifies this, bus
      ensures State() == LoadSpec(old(State()), env).state
      ensures bus.log == old(bus.log) + LoadSpec(old(State()), env).emitted
      ensures all == LoadSpec(old(State()), env).result
      ensures cache == old(cache)
    {
      Init(env);
      var data := stored;
      if data.None? {
        ResetWithDemoData(env.demo);
        return env.demo;
      }
      return data.value;
    }

    method GetAllSync() returns (all: seq<Transaction>)
      ensures all == cache
    {
      return cache;
    }

    method RefreshCache(env: Env) returns (all: seq<Transaction>)
      modifies this, bus
      ensures State() == LoadSpec(old(State()), env).state
      ensures bus.log == old(bus.log) + LoadSpec(old(State()), env).emitted
      ensures all == LoadSpec(old(State()), env).result && cache == all
    {
      all := GetAll(env);
      cache := all;
    }

    method Add(env: Env, f: NewFields, id: string, now: int, fault: Option<string>)
      returns (r: Result<Transaction, string>)
      modifies this, bus
      ensures State() == AddSpec(old(State()), env, f, id, now, fault).state
      ensures bus.log == old(bus.log) + AddSpec(old(State()), env, f, id, now, fault).emitted
      ensures r == AddSpec(old(State()), env, f, id, now, fault).result
      ensures cache == old(cache)
    {
      var current := GetAll(env);
      var newTx := Create(f, id, now);
      if fault.Some? {
        return Err(fault.value);
      }
      stored := Some(current + [newTx]);
      bus.Dispatch(DbUpdate);
      return Ok(newTx);
    }

    method Update(env: Env, id: string, p: Patch, fault: Option<string>)
      returns (r: Result<Option<Transaction>, string>)
      modifies this, bus
      ensures State() == UpdateSpec(old(State()), env, id, p, fault).state
      ensures bus.log == old(bus.log) + UpdateSpec(old(State()), env, id, p, fault).emitted
      ensures r == UpdateSpec(old(State()), env, id, p, fault).result
      ensures cache == old(cache)
    {
      var current := GetAll(env);
      var index := FindIndex(current, id);
      if index.None? {
        return Ok(None);
      }
      var updatedTx := Merge(current[index.value], p);
      current := current[index.value := updatedTx];
      if fault.Some? {
        return Err(fault.value);
      }
      stored := Some(current);
      bus.Dispatch(DbUpdate);
      return Ok(Some(updatedTx));
    }

    method Delete(env: Env, id: string, fault: Option<string>)
      returns (r: Result<bool, string>)
      modifies this, bus
      ensures State() == DeleteSpec(old(State()), env, id, fault).state
      ensures bus.log == old(bus.log) + DeleteSpec(old(State()), env, id, fault).emitted
      ensures r == DeleteSpec(old(State()), env, id, fault).result
      ensures cache == old(cache)
    {
      var current := GetAll(env);
      var filtered := Filter(current, KeepOthers(id));
      if |filtered| == |current| {
        return Ok(false);
      }
      if fault.Some? {
        return Err(fault.value);
      }
      stored := Some(filtered);
      bus.Dispatch(DbUpdate);
      return Ok(true);
    }

    method Query(env: Env, q: Query) returns (data: seq<Transaction>)
      modifies this, bus
      ensures State() == QuerySpec(old(State()), env, q).state
      ensures bus.log == old(bus.log) + QuerySpec(old(State()), env, q).emitted
      ensures data == Filter(LoadSpec(old(State()), env).result, (t: Transaction) => Matches(q, t))
      ensures cache == old(cache)
    {
      data := GetAll(env);
      ghost var all := data;
      if Present(q.dateStart) {
        data := Filter(data, AfterStart(q));
      }
      if Present(q.dateEnd) {
        data := Filter(data, BeforeEnd(q));
      }
      if q.txType.Some? {
        data := Filter(data, OfType(q));
      }
      if Present(q.category) {
        data := Filter(data, InCategory(q));
      }
      assert data == Matching(all, q);
      MatchingIsFilter(all, q);
    }

    method ForceReset(env: Env)
      modifies this, bus
      ensures State() == ForceResetSpec(old(State()), env).state
      ensures bus.log == old(bus.log) + [DbUpdate]
      ensures cache == old(cache)
    {
      ResetWithDemoData(env.demo);
      marker := Some(env.today);
    }
  }
}
