/** The store behind a deployment's memory, with and without a cache of the ConfigMap. Models Load, Save, Delete and Seen of internal/store/store.go. */
module MemoryStore {
  import opened Memory

  type Uid = string
  type Data = map<string, string>

  datatype ConfigMap = ConfigMap(owners: seq<Uid>, data: Data)

  predicate OwnedBy(cm: ConfigMap, uid: Uid) { uid in cm.owners }

  // ---------------------------------------------------------------- merge patches

  /** The merge patch that turns one version into another: new values, and None for removed keys. */
  function Diff(a: Data, b: Data): map<string, Option<string>> {
    map k | k in a.Keys + b.Keys && !Agree(a, b, k) :: if k in b then Some(b[k]) else None
  }

  predicate Agree(a: Data, b: Data, k: string) {
    (k in a <==> k in b) && (k in a ==> a[k] == b[k])
  }

  /** A null removes the key, as section 2 of RFC 7396 has it. */
  function Patched(data: Data, patch: map<string, Option<string>>): Data {
    map k | k in data.Keys + patch.Keys && (k in patch ==> patch[k].Some?) ::
      if k in patch then patch[k].value else data[k]
  }

  /** A diff taken against one version and applied to another gives what was wanted exactly when the
      two agree wherever the diff is silent. */
  lemma PatchIsExact(read: Data, wanted: Data, current: Data)
    ensures Patched(current, Diff(read, wanted)) == wanted
       <==> forall k :: Agree(read, wanted, k) ==> Agree(current, wanted, k)
  {
    var patch := Diff(read, wanted);
    var result := Patched(current, patch);
    forall k ensures Agree(result, wanted, k) <==> (Agree(read, wanted, k) ==> Agree(current, wanted, k)) {
    }
    if forall k :: Agree(result, wanted, k) {
      SameData(result, wanted);
    }
  }

  lemma SameData(a: Data, b: Data)
    requires forall k :: Agree(a, b, k)
    ensures a == b
  {
    assert forall k :: Agree(a, b, k) ==> (k in a <==> k in b);
  }

  // ---------------------------------------------------------------- saving, as a function

  /** Saving after reading afresh: a ConfigMap of ours gets the data, one of a dead deployment is
      replaced, a missing one is created. */
  function Reread(server: Option<ConfigMap>, uid: Uid, data: Data): (cm: ConfigMap)
    ensures cm.data == data && OwnedBy(cm, uid)
    ensures cm.owners == if server.Some? && uid in server.value.owners then server.value.owners else [uid]
  {
    if server.Some? && OwnedBy(server.value, uid) then server.value.(data := data) else ConfigMap([uid], data)
  }

  predicate Usable(seen: Option<ConfigMap>, uid: Uid) { seen.Some? && OwnedBy(seen.value, uid) }

  /** Saving from what was seen. */
  function FromSeen(seen: Option<ConfigMap>, server: Option<ConfigMap>, uid: Uid, data: Data): Option<ConfigMap> {
    if !Usable(seen, uid) then Some(Reread(server, uid, data))
    else if seen.value.data == data then server
    else if server.None? then Some(ConfigMap([uid], data))
    else Some(server.value.(data := Patched(server.value.data, Diff(seen.value.data, data))))
  }

  /** What the server must still hold for a save from seen to do what a fresh read would: nothing of
      ours may have changed except in the keys this save writes anyway. */
  ghost predicate StillGood(seen: Option<ConfigMap>, server: Option<ConfigMap>, uid: Uid, data: Data) {
    Usable(seen, uid) ==>
      if server.None? then seen.value.data != data
      else OwnedBy(server.value, uid) && forall k :: Agree(seen.value.data, data, k) ==> Agree(server.value.data, data, k)
  }

  lemma SeenIsAsGoodExactlyWhen(seen: Option<ConfigMap>, server: Option<ConfigMap>, uid: Uid, data: Data)
    ensures FromSeen(seen, server, uid, data) == Some(Reread(server, uid, data)) <==> StillGood(seen, server, uid, data)
  {
    if Usable(seen, uid) && server.Some? {
      PatchIsExact(seen.value.data, data, server.value.data);
      if seen.value.data == data {
        if forall k :: Agree(server.value.data, data, k) { SameData(server.value.data, data); }
      }
      if !OwnedBy(server.value, uid) {
        assert OwnedBy(Reread(server, uid, data), uid);
      }
    }
  }

  lemma JustReadIsGood(server: Option<ConfigMap>, uid: Uid, data: Data)
    ensures FromSeen(server, server, uid, data) == Some(Reread(server, uid, data))
  {
    SeenIsAsGoodExactlyWhen(server, server, uid, data);
  }

  // ---------------------------------------------------------------- runs

  /** A tick loads and may save; a release deletes; between ticks anything may happen to the ConfigMap,
      and a process may forget what it has seen. */
  datatype Event =
    | TickOf(uid: Uid, save: Option<Data>)
    | Release
    | Outside(server: Option<ConfigMap>)
    | ForgetSeen

  /** The ConfigMap, and what the cache holds of it. */
  datatype Stored = Stored(server: Option<ConfigMap>, seen: Option<ConfigMap>)

  function AfterLoad(caching: bool, s: Stored): Stored {
    if caching then s.(seen := s.server) else s
  }

  function AfterSave(caching: bool, s: Stored, uid: Uid, data: Data): Stored {
    var server := if caching then FromSeen(s.seen, s.server, uid, data) else Some(Reread(s.server, uid, data));
    Stored(server, if caching then server else s.seen)
  }

  /** Either store; the one without a cache reads afresh on every save. */
  function Step(caching: bool, s: Stored, e: Event): Stored {
    match e
    case TickOf(uid, save) =>
      var loaded := AfterLoad(caching, s);
      if save.Some? then AfterSave(caching, loaded, uid, save.value) else loaded
    case Release => Stored(None, None)
    case Outside(server) => s.(server := server)
    case ForgetSeen => s.(seen := None)
  }

  function Run(caching: bool, s: Stored, events: seq<Event>): Stored
    decreases |events|
  {
    if events == [] then s else Run(caching, Step(caching, s, events[0]), events[1..])
  }

  /** After any sequence of ticks, releases and outside changes between ticks, the store that saves
      from its cache has left the same ConfigMap, data and owner, as the one that reads again. */
  lemma {:induction false} CacheChangesNothing(s: Stored, t: Stored, events: seq<Event>)
    requires s.server == t.server
    ensures Run(true, s, events).server == Run(false, t, events).server
    decreases |events|
  {
    if events != [] {
      var e := events[0];
      if e.TickOf? && e.save.Some? { JustReadIsGood(s.server, e.uid, e.save.value); }
      CacheChangesNothing(Step(true, s, e), Step(false, t, e), events[1..]);
    }
  }

  // ---------------------------------------------------------------- the store

  /** Which of the calls to the API server get through. */
  datatype Calls = Calls(get: bool, patch: bool, create: bool, delete: bool)

  predicate AllThrough(calls: Calls) { calls.get && calls.patch && calls.create && calls.delete }

  class Api {
    var cm: Option<ConfigMap>
    constructor () ensures cm == None { cm := None; }
  }

  class Store {
    const api: Api
    const caching: bool
    var seen: Option<ConfigMap>

    constructor (api: Api, caching: bool)
      ensures this.api == api && this.caching == caching && seen == None
    {
      this.api, this.caching, seen := api, caching, None;
    }

    /** Reads the ConfigMap; the data of a dead deployment's is not ours. */
    method Load(uid: Uid, get: bool) returns (ok: bool, data: Option<Data>)
      modifies this
      ensures ok == get
      ensures ok && caching ==> seen == api.cm
      ensures !ok || !caching ==> seen == old(seen)
      ensures data.Some? <==> ok && api.cm.Some? && OwnedBy(api.cm.value, uid)
      ensures data.Some? ==> data.value == api.cm.value.data
    {
      if !get { return false, None; }
      if caching { seen := api.cm; }
      ok := true;
      data := if api.cm.Some? && OwnedBy(api.cm.value, uid) then Some(api.cm.value.data) else None;
    }

    method Delete(uid: Uid, delete: bool) returns (ok: bool)
      modifies this, api
      ensures ok == delete && (if ok then api.cm == None else api.cm == old(api.cm))
      ensures seen == if caching then None else old(seen)
    {
      if caching { seen := None; }
      ok := delete;
      if delete { api.cm := None; }
    }

    /** Writes the data, from what was seen if it is ours and from a fresh read otherwise. When every
        call gets through this is FromSeen for the caching store and Reread for the other. A failed
        save leaves the ConfigMap as it was, or a dead deployment's one deleted. */
    method Save(uid: Uid, data: Data, calls: Calls) returns (ok: bool)
      modifies this, api
      ensures AllThrough(calls) ==> ok
      ensures ok && caching ==> api.cm == FromSeen(old(seen), old(api.cm), uid, data)
      ensures ok && !caching && old(seen) == None ==> api.cm == Some(Reread(old(api.cm), uid, data))
      ensures ok && caching && old(seen) == old(api.cm) ==> seen == api.cm == Some(Reread(old(api.cm), uid, data))
      ensures caching && (old(seen) == old(api.cm) || api.cm != old(api.cm)) && ok ==> seen == api.cm
      ensures !caching ==> seen == old(seen)
      ensures !ok ==> seen == old(seen) || seen == None
      ensures !ok && caching && Usable(old(seen), uid) && old(api.cm).None? && calls.patch ==> seen == None
      ensures !ok && api.cm != old(api.cm) ==> api.cm == None && !OwnedBy(old(api.cm).value, uid)
      decreases if api.cm.Some? then 1 else 0
    {
      JustReadIsGood(api.cm, uid, data);
      if caching && Usable(seen, uid) {
        if seen.value.data == data { return true; }
        if !calls.patch { return false; }
        if api.cm.Some? {
          api.cm := Some(api.cm.value.(data := Patched(api.cm.value.data, Diff(seen.value.data, data))));
          seen := api.cm; // the answer to a patch is the object it made
          return true;
        }
        seen := None; // the ConfigMap is gone, and what was seen of it with it
      }
      if !calls.get { return false; }
      if api.cm.None? {
        if !calls.create { return false; }
        api.cm := Some(ConfigMap([uid], data));
      } else if !OwnedBy(api.cm.value, uid) {
        if !calls.delete { return false; }
        api.cm := None;
        ok := Save(uid, data, calls);
        return ok;
      } else if api.cm.value.data == data {
        return true;
      } else {
        if !calls.patch { return false; }
        PatchIsExact(api.cm.value.data, data, api.cm.value.data);
        api.cm := Some(api.cm.value.(data := Patched(api.cm.value.data, Diff(api.cm.value.data, data))));
      }
      if caching { seen := api.cm; }
      ok := true;
    }

    /** A tick's Load and Save, with nothing else writing in between. */
    method Tick(uid: Uid, save: Option<Data>)
      requires !caching ==> seen == None
      modifies this, api
      ensures Stored(api.cm, seen) == Step(caching, Stored(old(api.cm), old(seen)), TickOf(uid, save))
    {
      var loaded, _ := Load(uid, true);
      if save.Some? {
        JustReadIsGood(api.cm, uid, save.value);
        var saved := Save(uid, save.value, Calls(true, true, true, true));
      }
    }
  }
}
