/** The conditional patch with one retry. Models merge of internal/controller/patcher.go against an
    API server on which anyone may write at any moment. */
module Patcher {
  import opened Memory
  import opened Decider
  import opened Tick

  /** How one request fared: it got through, it failed before the server saw it, or the server acted
      and the answer was lost. */
  datatype Network = Through | LostRequest | LostAnswer

  datatype Reply = Ok | Conflict | Error

  /** Every version of one object; the resource version is an index into it. */
  class Server {
    var versions: seq<Object>

    ghost predicate Valid() reads this { versions != [] }

    constructor (o: Object)
      ensures Valid() && versions == [o]
    {
      versions := [o];
    }

    /** Others write: a new version each. */
    method Write(written: seq<Object>)
      requires Valid()
      modifies this
      ensures Valid() && versions == old(versions) + written
    {
      versions := versions + written;
    }

    /** A merge patch that names the version it was made for. */
    method Patch(version: nat, p: Patch, network: Network) returns (reply: Reply)
      requires Valid()
      modifies this
      ensures Valid()
      ensures version == |old(versions)| - 1 && network != LostRequest ==>
        versions == old(versions) + [Merged(old(versions)[version], p)]
      ensures !(version == |old(versions)| - 1 && network != LostRequest) ==> versions == old(versions)
      ensures reply == Ok <==> network == Through && version == |old(versions)| - 1
      ensures reply == Conflict <==> network == Through && version != |old(versions)| - 1
    {
      if network == LostRequest { return Error; }
      var current := version == |versions| - 1;
      if current {
        versions := versions + [Merged(versions[version], p)];
      }
      reply := if network == LostAnswer then Error else if current then Ok else Conflict;
    }
  }

  /** Our patch is version k of the history, made on an object whose spec.job.state is the one read. */
  predicate LandedAt(versions: seq<Object>, k: nat, seen: JobSpec, p: Patch) {
    0 < k < |versions| && versions[k] == Merged(versions[k - 1], p) && versions[k - 1].spec == seen
  }

  /** The versions that are not ours. */
  function Foreign(versions: seq<Object>, landed: Option<nat>): seq<Object> {
    if landed.Some? && landed.value < |versions| then versions[..landed.value] + versions[landed.value + 1..] else versions
  }

  predicate Unchanged(versions: seq<Object>, seen: nat)
    requires seen < |versions|
  {
    versions[|versions| - 1].spec == versions[seen].spec
  }

  /** Patches the object that was read as version seen. On a conflict, and while others keep writing
      before the fresh read and before the retry, reads afresh and tries once more, unless
      spec.job.state has changed. Whatever others write, at most one version is ours; it was made on
      an object whose spec.job.state is the value decided on; success means that it is there; and on
      a working network the patch lands exactly when one of its two chances meets the version it names. */
  method Merge(server: Server, seen: nat, p: Patch, hasReader: bool, readable: bool,
               beforeRead: seq<Object>, beforeRetry: seq<Object>, first: Network, second: Network)
    returns (reply: Reply, ghost landed: Option<nat>)
    requires server.Valid() && seen < |server.versions|
    modifies server
    ensures server.Valid() && old(server.versions) <= server.versions
    ensures landed.Some? ==> LandedAt(server.versions, landed.value, old(server.versions[seen].spec), p)
    ensures Foreign(server.versions, landed) in
      {old(server.versions), old(server.versions) + beforeRead, old(server.versions) + beforeRead + beforeRetry}
    ensures reply == Ok ==> landed.Some?
    ensures first == Through && second == Through ==> (reply == Ok <==> landed.Some?)
    ensures first == Through && second == Through ==>
      (landed.Some? <==>
        || seen == |old(server.versions)| - 1
        || (hasReader && readable && Unchanged(old(server.versions) + beforeRead, seen) && beforeRetry == []))
  {
    ghost var start := server.versions;
    landed := None;
    var was := server.versions[seen].spec;
    reply := server.Patch(seen, p, first);
    if |server.versions| > |start| {
      landed := Some(|start|);
      assert Foreign(server.versions, landed) == start;
    }
    if reply != Conflict || !hasReader { return; }
    server.Write(beforeRead);
    if !readable { return Error, None; }
    var latest := |server.versions| - 1;
    if server.versions[latest].spec != was { return Error, None; }
    server.Write(beforeRetry);
    ghost var before := server.versions;
    reply := server.Patch(latest, p, second);
    if |server.versions| > |before| {
      landed := Some(|before|);
      assert Foreign(server.versions, landed) == before;
    }
  }
}
