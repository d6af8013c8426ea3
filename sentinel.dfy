/**
 * Named sentinel objects, memoised by name in a module-level table: asking
 * again for a name with the same doc string gives back the very same
 * object, and a different doc string for a known name is an error.
 */
module Sentinels {
  import opened Wrappers

  /** A sentinel: compared by identity, carrying its name and doc string. */
  class Sentinel {
    const name: string
    const doc: Option<string>

    constructor(name: string, doc: Option<string>)
      ensures this.name == name && this.doc == doc
    {
      this.name := name;
      this.doc := doc;
    }

    /**
     * `__repr__`: the name in single quotes. Python's `repr` of the name
     * would also escape characters and switch to double quotes for a name
     * holding a `'`; those cases are not modelled.
     */
    function Repr(): (s: string)
      ensures |s| == |name| + 12 && s[..10] == "sentinel('" && s[10..|s| - 2] == name && s[|s| - 2..] == "')"
    {
      "sentinel('" + name + "')"
    }

    /** `__copy__`: the sentinel itself, never a new object. */
    function Copy(): (s: Sentinel)
      ensures s == this
    {
      this
    }

    /** `__deepcopy__`: the sentinel itself, whatever the memo. */
    function DeepCopy<M>(memo: M): (s: Sentinel)
      ensures s == this
    {
      this
    }

    /** `__reduce__`: the arguments that rebuild it through the table. */
    function Reduce(): (args: (string, Option<string>))
      ensures args.0 == name && args.1 == doc
    {
      (name, doc)
    }
  }

  /**
   * `repr` of an optional doc string, in single quotes. Python also
   * escapes characters and switches to double quotes when the text holds a
   * `'`; those cases are not modelled.
   */
  function DocRepr(doc: Option<string>): (s: string)
    ensures doc.None? ==> s == "None"
    ensures doc.Some? ==> |s| == |doc.value| + 2 && s[0] == '\'' && s[1..|s| - 1] == doc.value && s[|s| - 1] == '\''
  {
    match doc
    case None => "None"
    case Some(d) => "'" + d + "'"
  }

  /** The `ValueError` text for a name already taken with another doc string. */
  function ConflictMessage(name: string, oldDoc: Option<string>, newDoc: Option<string>): (m: string)
    ensures var head := "New sentinel value '" + name + "'";
      |m| > |head| && m[..|head|] == head
  {
    var head := "New sentinel value '" + name + "'";
    var tail := " conflicts with an existing sentinel of the\nsame name.\n"
      + "Old sentinel docstring: " + DocRepr(oldDoc) + "\n"
      + "New sentinel docstring: " + DocRepr(newDoc) + "\n"
      + "Resolve this conflict by changing the name of one of the sentinels.\n";
    assert |tail| > 0;
    var m := head + tail;
    assert m[..|head|] == head;
    m
  }

  /** The table `sentinel._cache`. */
  class SentinelCache {
    var cache: map<string, Sentinel>

    /** Every cached sentinel is stored under its own name. */
    ghost predicate Valid()
      reads this
    {
      forall n :: n in cache ==> cache[n].name == n
    }

    /** The table starts empty. */
    constructor()
      ensures cache == map[] && Valid()
    {
      cache := map[];
    }

    /**
     * `sentinel(name, doc)`: the cached object when the doc strings agree,
     * the conflict error (with the table unchanged) when they do not, and a
     * new sentinel, now cached, for a new name.
     */
    method Get(name: string, doc: Option<string>) returns (r: Result<Sentinel, string>)
      requires Valid()
      modifies this
      ensures Valid()
      ensures name in old(cache) && old(cache)[name].doc == doc ==>
        r == Ok(old(cache)[name]) && cache == old(cache)
      ensures name in old(cache) && old(cache)[name].doc != doc ==>
        r == Err(ConflictMessage(name, old(cache)[name].doc, doc)) && cache == old(cache)
      ensures name !in old(cache) ==>
        r.Ok? && fresh(r.value) && r.value.name == name && r.value.doc == doc
        && cache == old(cache)[name := r.value]
    {
      if name in cache {
        var value := cache[name];
        if doc == value.doc {
          return Ok(value);
        }
        return Err(ConflictMessage(name, value.doc, doc));
      }
      var s := new Sentinel(name, doc);
      cache := cache[name := s];
      return Ok(s);
    }
  }

  /**
   * Memoisation: a second request with the same doc string, or the one
   * rebuilt from a sentinel's `__reduce__`, returns the identical object.
   */
  method SameObjectTwice(c: SentinelCache, name: string, doc: Option<string>)
    returns (first: Result<Sentinel, string>, second: Result<Sentinel, string>, rebuilt: Result<Sentinel, string>)
    requires c.Valid() && name !in c.cache
    modifies c
    ensures first.Ok? && second == first && rebuilt == first
    ensures first.value.Copy() == first.value && first.value.DeepCopy(0) == first.value
  {
    first := c.Get(name, doc);
    second := c.Get(name, doc);
    var args := first.value.Reduce();
    rebuilt := c.Get(args.0, args.1);
  }
}
