/** The graph lock: one object, created only when absent and deleted only by its writer. */
module GraphLock {
  import opened Options

  /** ETags; every accepted write gets a new one. */
  type Tag = nat

  /** How a create-if-absent request ends when nothing is there: answered, with or without an ETag, or failed. */
  datatype Put = Accepted(tagged: bool) | Errored(written: bool)

  /** How a delete request ends. */
  datatype Delete = Deleted | NotDeleted | DeletedButFailed

  /** If-None-Match: *. */
  function PutIfAbsent(stored: Option<Tag>, tag: Tag, put: Put): Option<Tag> {
    if stored.None? && (put.Accepted? || put.written) then Some(tag) else stored
  }

  function DeleteAny(stored: Option<Tag>, del: Delete): Option<Tag> {
    if del.NotDeleted? then stored else None
  }

  /** If-Match: the object goes only when it still carries the holder's tag. */
  function DeleteMatching(stored: Option<Tag>, tag: Tag, del: Delete): Option<Tag> {
    if stored == Some(tag) then DeleteAny(stored, del) else stored
  }

  class Bucket {
    var stored: Option<Tag>
    var next: Tag

    constructor ()
      ensures stored == None && next == 0
    {
      stored, next := None, 0;
    }

    ghost predicate Valid()
      reads this
    {
      stored.Some? ==> stored.value < next
    }

    method Acquire(put: Put, del: Delete) returns (held: Option<Held>)
      requires Valid()
      modifies this
      ensures Valid() && next == old(next) + 1
      ensures held.Some? <==> old(stored).None? && put == Accepted(true)
      ensures held.Some? ==>
        fresh(held.value) && held.value.bucket == this && !held.value.closed
        && stored == Some(held.value.etag) && held.value.etag == old(next)
      ensures old(stored).Some? ==> stored == old(stored)
      ensures held.None? && old(stored).None? && put.Accepted? ==>
        stored == if del.NotDeleted? then Some(old(next)) else None
      ensures old(stored).None? && put.Errored? ==> stored == if put.written then Some(old(next)) else None
    {
      var tag := next;
      var absent := stored.None?;
      stored := PutIfAbsent(stored, tag, put);
      next := next + 1;
      if !absent || put.Errored? {
        return None;
      }
      if !put.tagged {
        stored := DeleteAny(stored, del);
        return None;
      }
      var h := new Held(this, tag);
      return Some(h);
    }

    /** The forced release leaves nothing behind, or an error and the lock as it was. */
    method Release(del: Delete) returns (ok: bool)
      requires Valid()
      modifies this`stored
      ensures Valid()
      ensures ok <==> del.Deleted?
      ensures stored == None || (del.NotDeleted? && stored == old(stored))
      ensures del.NotDeleted? ==> stored == old(stored)
    {
      stored := DeleteAny(stored, del);
      return del.Deleted?;
    }

    /** An operator's forced release and a new acquisition: afterwards the lock is the new holder's, and the
        old holder's Close cannot take it away. */
    method Retake(old_: Held, put: Put) returns (held: Option<Held>)
      requires Valid() && old_.bucket == this && !old_.closed && old_.etag < next
      modifies this, old_`closed
      ensures Valid()
      ensures held.Some? <==> put == Accepted(true)
      ensures held.Some? ==> old_.closed && held.value.etag != old_.etag && stored == Some(held.value.etag)
    {
      var released := Release(Deleted);
      held := Acquire(put, Deleted);
      if held.Some? {
        var ignored := old_.Close(Deleted);
      }
    }
  }

  class Held {
    const bucket: Bucket
    const etag: Tag
    var closed: bool

    constructor (bucket: Bucket, etag: Tag)
      ensures this.bucket == bucket && this.etag == etag && !closed
    {
      this.bucket, this.etag, closed := bucket, etag, false;
    }

    /** Closing never removes a lock that someone else took, and closing twice is harmless. */
    method Close(del: Delete) returns (ok: bool)
      requires bucket.Valid()
      modifies this`closed, bucket`stored
      ensures bucket.Valid()
      ensures bucket.stored ==
        if old(closed) || old(bucket.stored) != Some(etag) || del.NotDeleted? then old(bucket.stored) else None
      ensures old(bucket.stored) != Some(etag) ==> bucket.stored == old(bucket.stored)
      ensures ok == closed
      ensures ok && !old(closed) ==> bucket.stored != Some(etag)
      ensures old(closed) ==> ok
      ensures del.Deleted? ==> ok
    {
      if closed {
        return true;
      }
      if del.NotDeleted? {
        return false;
      }
      if bucket.stored == Some(etag) {
        bucket.stored := None;
        if del.DeletedButFailed? {
          return false;
        }
      }
      closed := true;
      return true;
    }
  }
}
