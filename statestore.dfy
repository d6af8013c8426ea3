/**
 * Persistence of the algorithm's context between runs. The storage engine
 * is an abstract slot holding at most one saved state; the state is the
 * context's attributes minus an exclude list, tagged with a checksum (the
 * algorithm's name) that must match on load.
 */
module StateStores {
  import opened Wrappers

  /** An attribute value; the checksum is stored as text among them. */
  datatype StateValue = TextValue(text: string) | ObjectValue(id: int)

  const ChecksumKey := "__state_checksum"

  const NoEngineMessage := "path or storage_engine arg is required"

  const ChecksumMismatchMessage :=
    "Checksum mismatch during state load. The given state file was not created for the algorithm in use"

  /**
   * A storage engine: the file store (with its path) or a given engine.
   * `saved` is `None` while the engine has nothing it can load (no file, an
   * empty file, no Redis key).
   */
  class StorageEngine {
    const path: Option<string>
    var saved: Option<map<string, StateValue>>

    /** An engine over what its medium already holds. */
    constructor(path: Option<string>, saved: Option<map<string, StateValue>>)
      ensures this.path == path && this.saved == saved
    {
      this.path := path;
      this.saved := saved;
    }

    /** `can_load` */
    predicate CanLoad()
      reads this
    {
      saved.Some?
    }

    /** `save`: the whole state replaces whatever was stored. */
    method Save(state: map<string, StateValue>)
      modifies this
      ensures saved == Some(state)
    {
      saved := Some(state);
    }
  }

  /** The algorithm object whose `__dict__` is saved and restored. */
  class Context {
    var attrs: map<string, StateValue>

    constructor(attrs: map<string, StateValue>)
      ensures this.attrs == attrs
    {
      this.attrs := attrs;
    }
  }

  /** What `save` stores: the attributes not excluded, and the checksum under its key. */
  function SavedState(attrs: map<string, StateValue>, checksum: string, exclude: seq<string>): (state: map<string, StateValue>)
    ensures state.Keys == (attrs.Keys - set x | x in exclude) + {ChecksumKey}
    ensures state[ChecksumKey] == TextValue(checksum)
    ensures forall f :: f in attrs && f !in exclude && f != ChecksumKey ==> state[f] == attrs[f]
  {
    (map f | f in attrs && f !in exclude :: attrs[f])[ChecksumKey := TextValue(checksum)]
  }

  /**
   * What `load` makes of a loaded state: the error when the checksum is
   * missing or differs, otherwise the attributes to set, checksum removed.
   */
  function Restored(loaded: map<string, StateValue>, checksum: string): (r: Result<map<string, StateValue>, string>)
    ensures r.Err? <==> ChecksumKey !in loaded || loaded[ChecksumKey] != TextValue(checksum)
    ensures r.Err? ==> r.error == ChecksumMismatchMessage
    ensures r.Ok? ==> r.value.Keys == loaded.Keys - {ChecksumKey}
    ensures r.Ok? ==> forall k :: k in r.value ==> r.value[k] == loaded[k]
  {
    if ChecksumKey !in loaded || loaded[ChecksumKey] != TextValue(checksum) then Err(ChecksumMismatchMessage)
    else Ok(loaded - {ChecksumKey})
  }

  /**
   * Round trip: a state saved under a checksum loads back under the same
   * checksum as exactly the saved attributes, and fails under any other.
   */
  lemma SaveLoadRoundTrip(attrs: map<string, StateValue>, checksum: string, other: string, exclude: seq<string>)
    ensures var r := Restored(SavedState(attrs, checksum, exclude), checksum);
      r.Ok? && r.value.Keys == attrs.Keys - (set x | x in exclude) - {ChecksumKey}
      && forall f :: f in r.value ==> r.value[f] == attrs[f]
    ensures other != checksum ==> Restored(SavedState(attrs, checksum, exclude), other).Err?
  {
  }

  class StateStore {
    const engine: StorageEngine

    constructor(engine: StorageEngine)
      ensures this.engine == engine
    {
      this.engine := engine;
    }

    /**
     * `save`: the state is built attribute by attribute from the
     * attributes not excluded, then handed to the engine.
     */
    method Save(context: Context, checksum: string, exclude: seq<string>)
      modifies engine
      ensures engine.saved == Some(SavedState(context.attrs, checksum, exclude))
    {
      var fields := context.attrs.Keys - set x | x in exclude;
      var state: map<string, StateValue> := map[];
      var todo := fields;
      while todo != {}
        invariant todo <= fields
        invariant state.Keys == fields - todo
        invariant forall f :: f in state ==> state[f] == context.attrs[f]
        decreases todo
      {
        var field :| field in todo;
        state := state[field := context.attrs[field]];
        todo := todo - {field};
      }
      state := state[ChecksumKey := TextValue(checksum)];
      assert state == SavedState(context.attrs, checksum, exclude);
      engine.Save(state);
    }

    /**
     * `load`: nothing happens when the engine has nothing to load; a
     * missing or different checksum is an error and sets nothing; otherwise
     * every stored attribute but the checksum is set on the context.
     */
    method Load(context: Context, checksum: string) returns (r: Result<(), string>)
      modifies context
      ensures !old(engine.CanLoad()) ==> r.Ok? && context.attrs == old(context.attrs)
      ensures old(engine.CanLoad()) ==>
        var restored := Restored(engine.saved.value, checksum);
        (r.Err? <==> restored.Err?)
        && (r.Err? ==> r.error == restored.error && context.attrs == old(context.attrs))
        && (r.Ok? ==> context.attrs == old(context.attrs) + restored.value)
    {
      if !engine.CanLoad() {
        return Ok(());
      }
      var loaded := engine.saved.value;
      if ChecksumKey !in loaded || loaded[ChecksumKey] != TextValue(checksum) {
        return Err(ChecksumMismatchMessage);
      }
      loaded := loaded - {ChecksumKey};
      var todo := loaded.Keys;
      while todo != {}
        invariant todo <= loaded.Keys
        invariant context.attrs == old(context.attrs) + (map k | k in loaded.Keys - todo :: loaded[k])
        decreases todo
      {
        var k :| k in todo;
        context.attrs := context.attrs[k := loaded[k]];
        todo := todo - {k};
      }
      assert (map k | k in loaded.Keys - todo :: loaded[k]) == loaded;
      return Ok(());
    }
  }

  /**
   * `StateStore(path, storage_engine)`: a file store when a non-empty path is
   * given, else the given engine, else the `ValueError`. `onDisk` is what
   * the file at `path` holds from an earlier run, if anything.
   */
  method NewStateStore(path: Option<string>, onDisk: Option<map<string, StateValue>>, engine: Option<StorageEngine>)
    returns (r: Result<StateStore, string>)
    ensures r.Err? <==> (path.None? || path.value == "") && engine.None?
    ensures r.Err? ==> r.error == NoEngineMessage
    ensures r.Ok? && path.Some? && path.value != "" ==>
      fresh(r.value.engine) && r.value.engine.path == path && r.value.engine.saved == onDisk
    ensures r.Ok? && (path.None? || path.value == "") ==> r.value.engine == engine.value
  {
    if path.Some? && path.value != "" {
      var files := new StorageEngine(path, onDisk);
      var store := new StateStore(files);
      return Ok(store);
    } else if engine.Some? {
      var store := new StateStore(engine.value);
      return Ok(store);
    }
    return Err(NoEngineMessage);
  }

  /**
   * The state survives a restart: what one run saves, a new context of
   * the same algorithm loads back, over the attributes it already had.
   */
  method SaveThenLoad(store: StateStore, saving: Context, loading: Context, checksum: string, exclude: seq<string>)
    returns (r: Result<(), string>)
    requires saving != loading
    modifies store.engine, loading
    ensures r.Ok?
    ensures loading.attrs == old(loading.attrs)
      + (map f | f in saving.attrs && f !in exclude && f != ChecksumKey :: saving.attrs[f])
  {
    store.Save(saving, checksum, exclude);
    r := store.Load(loading, checksum);
    var expected := map f | f in saving.attrs && f !in exclude && f != ChecksumKey :: saving.attrs[f];
    assert Restored(SavedState(saving.attrs, checksum, exclude), checksum).value == expected;
  }
}
