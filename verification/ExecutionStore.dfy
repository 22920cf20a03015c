/** The local execution store: a directory of objects changed only by compare-and-swap. */
module ExecutionStore {
  import opened Options
  import opened Names

  type Key = string
  type Revision = nat

  datatype Object<T> = Object(revision: Revision, data: T)

  datatype Error = Missing | Conflict | Failed

  datatype Result<T> = Ok(value: T) | Err(error: Error)

  /** Where a request fails: reading what is there, filling the temporary file or renaming it (which may or
      may not be cleaned up), or syncing the directory once the change is visible. */
  datatype Fault = NoFault | Unreadable | NotFilled(cleaned: bool) | NotRenamed(cleaned: bool) | NotSynced

  /** The change becomes visible. */
  predicate Lands(f: Fault) { f.NoFault? || f.NotSynced? }

  /** The objects an observer can read. */
  type Objects<T> = map<Key, Object<T>>

  predicate Matches<T>(objects: Objects<T>, key: Key, revision: Option<Revision>) {
    if key in objects then revision == Some(objects[key].revision) else revision == None
  }

  class LocalStore<T(0)> {
    var objects: Objects<T>
    var pending: set<Revision>
    var next: Revision

    constructor ()
      ensures Valid() && objects == map[]
    {
      objects, pending, next := map[], {}, 0;
    }

    /** Revisions are never handed out twice. */
    ghost predicate Valid()
      reads this
    {
      && (forall k :: k in objects ==> objects[k].revision < next)
      && (forall p :: p in pending ==> p < next)
    }

    method Read(key: Key, fault: Fault) returns (r: Result<Object<T>>)
      ensures r == if fault.Unreadable? then Err(Failed) else if key in objects then Ok(objects[key]) else Err(Missing)
    {
      if fault.Unreadable? {
        return Err(Failed);
      }
      if key !in objects {
        return Err(Missing);
      }
      return Ok(objects[key]);
    }

    /** A write takes effect on exactly the version it names or changes nothing; an error leaves open which. */
    method Write(key: Key, data: T, revision: Option<Revision>, fault: Fault) returns (r: Result<Revision>)
      requires Valid()
      modifies this
      ensures Valid()
      ensures r.Ok? <==> Matches(old(objects), key, revision) && fault.NoFault?
      ensures r.Ok? ==> r.value == old(next)
      ensures r.Ok? || objects != old(objects) ==>
        if key in old(objects) then revision == Some(old(objects)[key].revision) else revision == None
      ensures r == Err(Conflict) ==>
        if key in old(objects) then revision != Some(old(objects)[key].revision) else revision != None
      ensures r.Err? ==> r.error == if fault.Unreadable? || Matches(old(objects), key, revision) then Failed
        else Conflict
      ensures objects == if Matches(old(objects), key, revision) && (fault.NoFault? || fault.NotSynced?)
        then old(objects)[key := Object(old(next), data)] else old(objects)
      ensures next == old(next) + if Matches(old(objects), key, revision) && !fault.Unreadable? then 1 else 0
      ensures pending == old(pending) + if Matches(old(objects), key, revision)
        && (fault == NotFilled(false) || fault == NotRenamed(false)) then {old(next)} else {}
    {
      var old_ := Read(key, fault);
      if old_.Err? && old_.error != Missing {
        return Err(Failed);
      }
      if (old_ == Err(Missing) && revision.Some?)
        || (old_.Ok? && (revision.None? || revision.value != old_.value.revision)) {
        return Err(Conflict);
      }
      var rev := next;
      next := next + 1;
      // The temporary file, which a failure or a crash may leave behind.
      pending := pending + {rev};
      if fault.NotFilled? {
        if fault.cleaned {
          pending := pending - {rev};
        }
        return Err(Failed);
      }
      if fault.NotRenamed? {
        if fault.cleaned {
          pending := pending - {rev};
        }
        return Err(Failed);
      }
      // The rename consumes it and publishes the object.
      pending := pending - {rev};
      objects := objects[key := Object(rev, data)];
      if fault.NotSynced? {
        return Err(Failed);
      }
      return Ok(rev);
    }

    method Remove(key: Key, revision: Revision, fault: Fault) returns (r: Result<()>)
      requires Valid()
      modifies this
      ensures Valid() && next == old(next) && pending == old(pending)
      ensures r.Ok? <==> Matches(old(objects), key, Some(revision)) && fault.NoFault?
      ensures r == Err(Missing) <==> key !in old(objects) && !fault.Unreadable?
      ensures r.Ok? || objects != old(objects) ==> key in old(objects) && revision == old(objects)[key].revision
      ensures objects == if Matches(old(objects), key, Some(revision)) && (fault.NoFault? || fault.NotSynced?)
        then old(objects) - {key} else old(objects)
    {
      var obj := Read(key, fault);
      if obj.Err? {
        return Err(obj.error);
      }
      if revision != obj.value.revision {
        return Err(Conflict);
      }
      if !Lands(fault) {
        return Err(Failed);
      }
      objects := objects - {key};
      if fault.NotSynced? {
        return Err(Failed);
      }
      return Ok(());
    }

    /** Temporary files are never listed; the rest is listed once, in order. */
    method List(fault: Fault) returns (r: Result<seq<Key>>)
      ensures r.Ok? <==> !fault.Unreadable?
      ensures r.Ok? ==> StrictlySorted(r.value) && Elems(r.value) == objects.Keys
    {
      if fault.Unreadable? {
        return Err(Failed);
      }
      var keys := SortSet(objects.Keys);
      return Ok(keys);
    }
  }
}
