/**
 * The write-back key/value cache of the image server (`KeyValueStore` and
 * `NoCacheKeyValueStore` in index.js).
 *
 * The store keeps an in-memory dictionary, a dirty flag and at most one
 * autocommit timer. `put` changes only memory; `commit` writes the whole
 * dictionary to the backing file when it is dirty; hydration, at
 * construction, replaces the dictionary with the file's contents when they
 * parse.
 *
 * The file system is modelled by a ghost log of the whole-dictionary writes
 * the store issues, and the outcome of reading the file at hydration time is
 * an input. The timer is modelled by whether it is set and its interval, not
 * by its periodic firing.
 */
module CacheStore {
  import opened Wrappers

  /**
   * A cached value as JavaScript holds it: `undefined` (never stored), a
   * single image URL, or a list of image URLs.
   */
  datatype Value = Missing | Url(url: string) | Urls(urls: seq<string>)

  /** JavaScript truthiness: `undefined` and "" are falsy, every array is truthy. */
  predicate Truthy(v: Value) {
    match v
    case Missing => false
    case Url(u) => u != ""
    case Urls(_) => true
  }

  /** Property lookup on the dictionary: `undefined` for an absent key. */
  function ValueAt(data: map<string, Value>, key: string): Value {
    if key in data then data[key] else Missing
  }

  /**
   * What hydration finds: no file, a read error, contents that do not parse,
   * contents that parse to `null` (or another falsy JSON value), or a
   * dictionary.
   */
  datatype FileState = NoFile | Unreadable | Unparsable | ParsedNull | Parsed(entries: map<string, Value>)

  /**
   * The abstract state of a store. `timer` is the interval of the active
   * autocommit timer (`_ac`), `running` counts the intervals started and not
   * yet cleared, and `writes` lists, in order, every dictionary handed to the
   * file system by `commit`.
   */
  datatype StoreState = StoreState(
    data: map<string, Value>,
    changed: bool,
    timer: Option<int>,
    running: int,
    writes: seq<map<string, Value>>)

  /** A freshly constructed store, before hydration completes. */
  function Initial(): StoreState {
    StoreState(map[], false, None, 0, [])
  }

  /** The last dictionary written, or `base` (what the file held before) if none was. */
  function LastWrite(writes: seq<map<string, Value>>, base: map<string, Value>): map<string, Value> {
    if writes == [] then base else writes[|writes| - 1]
  }

  /**
   * `put`: a falsy value changes nothing; a truthy one is stored under its
   * key, every other key keeps its value, and the store becomes dirty.
   */
  function AfterPut(s: StoreState, key: string, value: Value): (r: StoreState)
    ensures !Truthy(value) ==> r == s
    ensures Truthy(value) ==> ValueAt(r.data, key) == value && r.changed
    ensures forall k :: k != key ==> ValueAt(r.data, k) == ValueAt(s.data, k)
    ensures r.timer == s.timer && r.running == s.running && r.writes == s.writes
  {
    if !Truthy(value) then s
    else s.(data := s.data[key := value], changed := true)
  }

  /**
   * `commit`: a clean store is left as it is; a dirty one writes its whole
   * dictionary once and becomes clean, whatever the write's outcome.
   */
  function AfterCommit(s: StoreState): (r: StoreState)
    ensures !s.changed ==> r == s
    ensures s.changed ==> !r.changed && r.writes == s.writes + [s.data]
    ensures r.data == s.data && r.timer == s.timer && r.running == s.running
  {
    if !s.changed then s
    else s.(changed := false, writes := s.writes + [s.data])
  }

  /**
   * `autocommit(ms)`: with a timer already set, nothing changes and no handle
   * is returned; otherwise one interval of `ms` is started and a handle is
   * returned.
   */
  function AfterAutocommit(s: StoreState, ms: int): (r: (StoreState, bool))
    ensures s.timer.Some? ==> r == (s, false)
    ensures s.timer.None? ==> r.1 && r.0.timer == Some(ms) && r.0.running == s.running + 1
    ensures r.0.data == s.data && r.0.changed == s.changed && r.0.writes == s.writes
  {
    if s.timer.Some? then (s, false)
    else (s.(timer := Some(ms), running := s.running + 1), true)
  }

  /**
   * The handle's `stop`: clears whatever interval `_ac` holds (none when it
   * is already stopped) and unsets the timer.
   */
  function AfterStop(s: StoreState): (r: StoreState)
    ensures r.timer.None?
    ensures r.running == if s.timer.Some? then s.running - 1 else s.running
    ensures r.data == s.data && r.changed == s.changed && r.writes == s.writes
  {
    s.(timer := None, running := if s.timer.Some? then s.running - 1 else s.running)
  }

  /**
   * Hydration: a parsed dictionary replaces the whole in-memory dictionary,
   * a `null` parse empties it, and a missing, unreadable or unparsable file
   * leaves it as it is. The dirty flag, the timer and the writes are never
   * touched.
   */
  function AfterHydrate(s: StoreState, f: FileState): (r: StoreState)
    ensures f.Parsed? ==> r.data == f.entries
    ensures f.ParsedNull? ==> r.data == map[]
    ensures f.NoFile? || f.Unreadable? || f.Unparsable? ==> r.data == s.data
    ensures r.changed == s.changed && r.timer == s.timer && r.running == s.running && r.writes == s.writes
  {
    match f
    case Parsed(m) => s.(data := m)
    case ParsedNull => s.(data := map[])
    case _ => s
  }

  /** One operation of the store. */
  datatype Op = DoPut(key: string, value: Value) | DoCommit | DoAutocommit(ms: int) | DoStop | DoHydrate(file: FileState)

  function Step(s: StoreState, op: Op): StoreState {
    match op
    case DoPut(k, v) => AfterPut(s, k, v)
    case DoCommit => AfterCommit(s)
    case DoAutocommit(ms) => AfterAutocommit(s, ms).0
    case DoStop => AfterStop(s)
    case DoHydrate(f) => AfterHydrate(s, f)
  }

  /** The state after a sequence of operations, applied left to right. */
  function Run(s: StoreState, ops: seq<Op>): StoreState
    decreases |ops|
  {
    if ops == [] then s else Run(Step(s, ops[0]), ops[1..])
  }

  /** Exactly one interval is running while the timer is set, none otherwise. */
  ghost predicate OneTimer(s: StoreState) {
    s.running == if s.timer.Some? then 1 else 0
  }

  /** However `autocommit` and `stop` are interleaved, at most one timer runs. */
  lemma {:induction false} AtMostOneTimer(s: StoreState, ops: seq<Op>)
    requires OneTimer(s)
    ensures OneTimer(Run(s, ops))
    ensures 0 <= Run(s, ops).running <= 1
    decreases |ops|
  {
    if ops != [] {
      AtMostOneTimer(Step(s, ops[0]), ops[1..]);
    }
  }

  /** A handle's `stop` followed by `autocommit` starts a timer again. */
  lemma StopThenAutocommitRestarts(s: StoreState, ms: int)
    requires OneTimer(s)
    ensures AfterAutocommit(AfterStop(s), ms).1
    ensures AfterAutocommit(AfterStop(s), ms).0.timer == Some(ms)
    ensures OneTimer(AfterAutocommit(AfterStop(s), ms).0)
  {
  }

  /**
   * Without a `put` in between, any number of commits (and timer or
   * hydration steps) issue at most one write, and none from a clean store.
   */
  lemma {:induction false} CommitsWithoutPutWriteOnce(s: StoreState, ops: seq<Op>)
    requires forall i :: 0 <= i < |ops| ==> !ops[i].DoPut?
    ensures |Run(s, ops).writes| <= |s.writes| + (if s.changed then 1 else 0)
    ensures s.writes <= Run(s, ops).writes
    decreases |ops|
  {
    if ops != [] {
      var t := Step(s, ops[0]);
      assert s.writes <= t.writes;
      assert t.changed ==> s.changed && t.writes == s.writes;
      CommitsWithoutPutWriteOnce(t, ops[1..]);
    }
  }

  /** A clean store's dictionary is what the file last received (or held). */
  ghost predicate Synced(s: StoreState, base: map<string, Value>) {
    !s.changed ==> s.data == LastWrite(s.writes, base)
  }

  /**
   * Without hydration, every operation keeps a clean store's dictionary equal
   * to the last write.
   */
  lemma {:induction false} SyncedWithoutHydration(s: StoreState, base: map<string, Value>, ops: seq<Op>)
    requires Synced(s, base)
    requires forall i :: 0 <= i < |ops| ==> !ops[i].DoHydrate?
    ensures Synced(Run(s, ops), base)
    decreases |ops|
  {
    if ops != [] {
      var t := Step(s, ops[0]);
      assert Synced(t, base);
      SyncedWithoutHydration(t, base, ops[1..]);
    }
  }

  /**
   * After any operations other than hydration, a `commit` leaves the file
   * holding the entire in-memory dictionary: every truthy `put` so far is
   * durable.
   */
  lemma CommitPersistsEverything(s: StoreState, base: map<string, Value>, ops: seq<Op>)
    requires Synced(s, base)
    requires forall i :: 0 <= i < |ops| ==> !ops[i].DoHydrate?
    ensures AfterCommit(Run(s, ops)).data == LastWrite(AfterCommit(Run(s, ops)).writes, base)
  {
    SyncedWithoutHydration(s, base, ops);
  }

  /**
   * Round trip: `put(k, v)` with a truthy `v`, then `commit`, then a new store
   * hydrated from the written dictionary gives back `v` for `k`.
   */
  lemma PutCommitHydrate(s: StoreState, key: string, value: Value)
    requires Truthy(value)
    ensures var t := AfterCommit(AfterPut(s, key, value));
            ValueAt(AfterHydrate(Initial(), Parsed(LastWrite(t.writes, map[]))).data, key) == value
  {
  }

  /**
   * The hydration race: a `put` made before hydration completes is lost when
   * the file parses to a dictionary without that key, although the store
   * stays dirty, so the next `commit` writes the dictionary without it.
   */
  lemma HydrationDiscardsEarlierPut(s: StoreState, key: string, value: Value, entries: map<string, Value>)
    requires Truthy(value) && key !in entries
    ensures var t := AfterHydrate(AfterPut(s, key, value), Parsed(entries));
            ValueAt(t.data, key) == Missing && t.changed
            && LastWrite(AfterCommit(t).writes, map[]) == entries
  {
  }

  /** The store of index.js, its fields updated in place. */
  class KeyValueStore {
    const file: string
    var data: map<string, Value>
    var changed: bool
    var timer: Option<int>
    ghost var running: int
    ghost var writes: seq<map<string, Value>>

    ghost function State(): StoreState
      reads this
    {
      StoreState(data, changed, timer, running, writes)
    }

    ghost predicate Valid()
      reads this
    {
      OneTimer(State())
    }

    /** A new store bound to `file`, empty and clean; hydration follows. */
    constructor(file: string)
      ensures this.file == file && Valid() && State() == Initial()
    {
      this.file := file;
      data := map[];
      changed := false;
      timer := None;
      running := 0;
      writes := [];
    }

    /** The hydration callback, given what reading and parsing the file gave. */
    method Hydrate(f: FileState)
      requires Valid()
      modifies this
      ensures Valid() && State() == AfterHydrate(old(State()), f)
    {
      match f
      case Parsed(m) => data := m;
      case ParsedNull => data := map[];
      case _ =>
    }

    /** `get`: reads the dictionary and changes nothing. */
    function Get(key: string): Value
      reads this
    {
      ValueAt(data, key)
    }

    method Put(key: string, value: Value)
      requires Valid()
      modifies this
      ensures Valid() && State() == AfterPut(old(State()), key, value)
      ensures Get(key) == if Truthy(value) then value else old(Get(key))
    {
      if !Truthy(value) {
        return;
      }
      data := data[key := value];
      changed := true;
    }

    method Commit()
      requires Valid()
      modifies this
      ensures Valid() && State() == AfterCommit(old(State()))
    {
      if !changed {
        return;
      }
      changed := false;
      writes := writes + [data];
    }

    /** `autocommit(ms = 60000)`; `started` says whether a handle was returned. */
    method Autocommit(ms: int := 60000) returns (started: bool)
      requires Valid()
      modifies this
      ensures Valid() && (State(), started) == AfterAutocommit(old(State()), ms)
    {
      if timer.Some? {
        return false;
      }
      timer := Some(ms);
      running := running + 1;
      started := true;
    }

    /** The returned handle's `stop`, which acts on whatever `_ac` holds. */
    method Stop()
      requires Valid()
      modifies this
      ensures Valid() && State() == AfterStop(old(State()))
    {
      if timer.Some? {
        running := running - 1;
      }
      timer := None;
    }
  }

  /** The store used when caching is disabled: it never holds anything. */
  class NoCacheKeyValueStore {
    constructor() {}

    function Get(key: string): (v: Value)
      ensures !Truthy(v)
    {
      Missing
    }

    /** Discards the value: a later `Get` of the same key is still absent. */
    method Put(key: string, value: Value)
      ensures Get(key) == Missing
    {
    }
  }
}
