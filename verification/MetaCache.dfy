/**
 * pkg/cloud/metacache.go as it is written: the cache, its two lock regions and the call
 * record late callers wait on. SingleFlight runs these regions interleaved.
 */
module MetaCache {
  import opened Wrappers
  import opened Clock
  import opened SdkErrors

  class MetaCacheCall<T(0)> {
    var done: bool
    var value: T
    var err: Option<SdkError>

    constructor ()
      ensures !done && err.None?
    {
      done := false;
      err := None;
    }

    // Closing the channel lets every waiter read the result.
    method Close()
      requires !done
      modifies this`done
      ensures done
    {
      done := true;
    }
  }

  // What the first lock region tells a caller to do.
  datatype Turn<T(0)> = Serve(value: T) | Await(call: MetaCacheCall<T>) | Fetch(call: MetaCacheCall<T>)

  // What a loader returns.
  datatype Answer<T> = Answer(value: T, err: Option<SdkError>)

  class MetaCache<T(0)> {
    const ttl: Duration
    const permanent: bool
    var value: T
    var loaded: bool
    var expires: Time
    var loading: MetaCacheCall?<T>

    constructor (ttl: Duration)
      ensures this.ttl == ttl && !permanent && !loaded && loading == null
      ensures forall now :: !Fresh(now)
    {
      this.ttl, permanent := ttl, false;
      loaded, expires, loading := false, 0, null;
    }

    constructor Permanent()
      ensures permanent && !loaded && loading == null
      ensures forall now :: !Fresh(now)
    {
      ttl, permanent := 0, true;
      loaded, expires, loading := false, 0, null;
    }

    predicate Fresh(now: Time)
      reads this
    {
      loaded && (permanent || now < expires)
    }

    // The first lock region: a fresh value is served, a running fetch is joined, and
    // otherwise the caller becomes the one that fetches.
    method Enter(now: Time) returns (turn: Turn<T>)
      modifies this`loading
      ensures Fresh(now) ==> turn == Serve(value) && loading == old(loading)
      ensures !Fresh(now) && old(loading) != null ==> turn == Await(old(loading)) && loading == old(loading)
      ensures !Fresh(now) && old(loading) == null ==>
                turn.Fetch? && fresh(turn.call) && loading == turn.call && !turn.call.done
    {
      if Fresh(now) {
        return Serve(value);
      }
      if loading != null {
        return Await(loading);
      }
      var call := new MetaCacheCall<T>();
      loading := call;
      return Fetch(call);
    }

    // The second lock region: the claim is dropped, and a success is remembered.
    method Publish(call: MetaCacheCall<T>, now: Time)
      modifies this
      ensures loading == null
      ensures call.err.None? ==> value == call.value && loaded && expires == now + ttl
      ensures call.err.Some? ==> value == old(value) && loaded == old(loaded) && expires == old(expires)
    {
      loading := null;
      if call.err.None? {
        value := call.value;
        loaded := true;
        expires := now + ttl;
      }
    }

    // get, when no fetch is running: a stale cache asks the loader once, passes its answer
    // on, keeps it for the TTL if it is a success and stays as it was if it is not.
    method Get(answer: Answer<T>, entered: Time, published: Time) returns (r: Answer<T>, asked: bool)
      requires loading == null && entered <= published
      modifies this
      ensures loading == null && asked == !old(Fresh(entered))
      ensures !asked ==> r == Answer(old(value), None)
      ensures asked ==> r == answer
      ensures asked && answer.err.None? ==>
                value == answer.value && forall t :: Fresh(t) <==> permanent || t < published + ttl
      ensures !asked || answer.err.Some? ==> value == old(value) && forall t :: Fresh(t) == old(Fresh(t))
    {
      var turn := Enter(entered);
      if turn.Serve? {
        return Answer(turn.value, None), false;
      }
      asked := true;
      var call := turn.call;
      call.value, call.err := answer.value, answer.err;
      Publish(call, published);
      call.Close();
      r := Answer(call.value, call.err);
    }
  }

  // keyedMetaCache: one cache per key, made on first use.
  class KeyedMetaCache<T(0)> {
    const ttl: Duration
    var entries: map<string, MetaCache<T>>

    constructor (ttl: Duration)
      ensures this.ttl == ttl && entries == map[]
    {
      this.ttl, entries := ttl, map[];
    }

    // The lock region of get: no two keys come to share an entry.
    method Entry(key: string) returns (entry: MetaCache<T>)
      modifies this`entries
      ensures key in entries && entries[key] == entry
      ensures if key in old(entries) then entries == old(entries)
              else
                && entries == old(entries)[key := entry] && fresh(entry)
                && !entry.loaded && entry.loading == null && entry.ttl == ttl
    {
      if key in entries {
        return entries[key];
      }
      entry := new MetaCache<T>(ttl);
      entries := entries[key := entry];
    }
  }
}
