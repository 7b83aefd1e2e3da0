/**
 * The blob copier as an object: a map of sets of sources, both grown in place, and copyBlob as the
 * sequence of effects it has under its key's lock. Undisturbed, that sequence is a path of the
 * transition system.
 */
module BlobCopiers {
  import opened Names
  import opened Mirror

  /** A set of repositories, shared by all who have looked it up. */
  class RepoSet {
    var elems: set<Repo>

    constructor ()
      ensures elems == {}
    {
      elems := {};
    }

    method Add(repo: Repo)
      modifies this
      ensures elems == old(elems) + {repo}
    {
      elems := elems + {repo};
    }

    /** The elements in whatever order the runtime chooses. */
    method ToSlice() returns (list: seq<Repo>)
      ensures forall r :: r in list <==> r in elems
    {
      list := [];
      var rest := elems;
      while rest != {}
        invariant forall r :: r in elems <==> r in list || r in rest
        decreases |rest|
      {
        var r :| r in rest;
        list, rest := list + [r], rest - {r};
      }
    }
  }

  /** What a registry answers to a request for an upload. */
  datatype Upload = Refused | Created | Location

  /** The answers that one copy will get, for each choice it may make. */
  datatype Answers = Answers(
    found: Option<bool>,                   // to the HEAD request; None is an error
    upload: Option<Repo> -> Upload,          // with or without a repository to mount from
    sent: Repo -> bool)                      // whether download and upload succeed

  /** Answers of registries that tell the truth: what they have found or created is there. */
  ghost predicate Honest(e: World, g: Shared, key: BlobKey, a: Answers) {
    && (a.found == Some(true) ==> (key.dst, key.digest) in g.held.blobs)
    && (a.upload(None) == Created ==> (key.dst, key.digest) in g.held.blobs)
    && (forall m :: a.upload(Some(m)) == Created ==>
          (m, key.digest) in g.held.blobs || (key.dst, key.digest) in g.held.blobs)
    && (forall m :: a.upload(Some(m)) == Location && (m, key.digest) in g.held.blobs ==> !e.honours(key.dst.registry))
    && (forall r :: a.sent(r) ==> (r, key.digest) in g.held.blobs)
  }

  /** A source, and a repository to mount from if the registry has one: any of those known. */
  ghost predicate MayChoose(known: set<Repo>, key: BlobKey, source: Repo, mount: Option<Repo>) {
    && source in known
    && match mount
       case Some(repo) => repo in known && repo.registry == key.dst.registry
       case None => forall repo <- known :: repo.registry != key.dst.registry
  }

  /** The upload request is granted outright, or the blob has been sent. */
  predicate Brings(a: Answers, source: Repo, mount: Option<Repo>) {
    a.upload(mount) == Created || (a.upload(mount) == Location && a.sent(source))
  }

  /** What the registries have in the end, and what has been sent to them. */
  ghost predicate LeftAs(g: Shared, g': Shared, key: BlobKey, brought: bool, sent: bool) {
    && g'.held == (if brought then PutBlob(g, key.dst, key.digest).held else g.held)
    && g'.transfers == g.transfers + if sent then multiset{MutexOf(key)} else multiset{}
  }

  /** The request for an upload and the rest, with some choice of source and repository to mount from. */
  ghost predicate Requested(g: Shared, g': Shared, key: BlobKey, known: set<Repo>, a: Answers, r: Option<bool>) {
    exists source, mount :: MayChoose(known, key, source, mount)
      && r == Some(Brings(a, source, mount))
      && LeftAs(g, g', key, Brings(a, source, mount), Brings(a, source, mount) && a.upload(mount) == Location)
  }

  /**
   * How a copy ends whose destination is not known to have the blob: with an error if the
   * destination could not be asked, well and with nothing done if it has the blob, with a crash if
   * no source is known, and else as the request for an upload does.
   */
  ghost predicate Answered(g: Shared, g': Shared, key: BlobKey, known: set<Repo>, a: Answers, r: Option<bool>) {
    match a.found
    case None => r == Some(false) && LeftAs(g, g', key, false, false)
    case Some(true) => r == Some(true) && LeftAs(g, g', key, false, false)
    case Some(false) => if known == {} then r == None else Requested(g, g', key, known, a, r)
  }

  /** The deferred unlock, and the result. */
  ghost function Unlocked(g: Shared, key: BlobKey, r: Option<bool>): Shared {
    g.(locks := g.locks - {MutexOf(key)}, attached := g.attached - 1,
       blobs := if r.Some? then g.blobs[key := Result(r.value)] else g.blobs)
  }

  lemma LeftAsAlso(g: Shared, last: Shared, h: Shared, h': Shared, key: BlobKey, brought: bool, sent: bool)
    requires h.held == g.held && h.transfers == g.transfers && h'.held == last.held && h'.transfers == last.transfers
    requires LeftAs(g, last, key, brought, sent)
    ensures LeftAs(h, h', key, brought, sent)
  {}

  lemma RequestedAlso(g: Shared, last: Shared, h: Shared, h': Shared, key: BlobKey, known: set<Repo>, a: Answers,
                      r: Option<bool>)
    requires h.held == g.held && h.transfers == g.transfers && h'.held == last.held && h'.transfers == last.transfers
    requires Requested(g, last, key, known, a, r)
    ensures Requested(h, h', key, known, a, r)
  {
    var source, mount :| MayChoose(known, key, source, mount) && r == Some(Brings(a, source, mount))
      && LeftAs(g, last, key, Brings(a, source, mount), Brings(a, source, mount) && a.upload(mount) == Location);
    var brought := Brings(a, source, mount);
    LeftAsAlso(g, last, h, h', key, brought, brought && a.upload(mount) == Location);
  }

  /** Locking and unlocking change nothing of this. */
  lemma AnsweredAlso(g: Shared, last: Shared, h: Shared, h': Shared, key: BlobKey, known: set<Repo>, a: Answers,
                     r: Option<bool>)
    requires h.held == g.held && h.transfers == g.transfers && h'.held == last.held && h'.transfers == last.transfers
    ensures Answered(g, last, key, known, a, r) ==> Answered(h, h', key, known, a, r)
    ensures LeftAs(g, last, key, false, false) ==> LeftAs(h, h', key, false, false)
  {
    if LeftAs(g, last, key, false, false) { LeftAsAlso(g, last, h, h', key, false, false); }
    if a.found == Some(false) && Requested(g, last, key, known, a, r) {
      RequestedAlso(g, last, h, h', key, known, a, r);
    }
  }

  datatype Stop = Stop(g: Shared, at: BlobPoint)

  /** Steps of one copy, each from where the one before it stopped. */
  ghost predicate Path(e: World, key: BlobKey, path: seq<Stop>) {
    && path != []
    && forall i, j | 0 <= i < j < |path| && j == i + 1 ::
         BlobStep(e, path[i].g, key, path[i].at, path[j].g, CopyBlob(key, path[j].at))
  }

  lemma PathGoesOn(e: World, key: BlobKey, path: seq<Stop>, next: Stop)
    requires Path(e, key, path)
    requires BlobStep(e, path[|path| - 1].g, key, path[|path| - 1].at, next.g, CopyBlob(key, next.at))
    ensures Path(e, key, path + [next])
  {}

  lemma PathStarts(e: World, key: BlobKey, first: Stop, path: seq<Stop>)
    requires Path(e, key, path) && BlobStep(e, first.g, key, first.at, path[0].g, CopyBlob(key, path[0].at))
    ensures var all := [first] + path;
      Path(e, key, all) && all[0] == first && all[|all| - 1] == path[|path| - 1]
  {
    var all := [first] + path;
    forall i, j | 0 <= i < j < |all| && j == i + 1
      ensures BlobStep(e, all[i].g, key, all[i].at, all[j].g, CopyBlob(key, all[j].at))
    {
      if i > 0 { assert all[i] == path[i - 1] && all[j] == path[j - 1]; }
    }
  }

  /** copyPlatform's list of a manifest's blobs: its layers, then its configuration. */
  method BlobDigests(layers: array<Digest>, config: Digest) returns (blobDigests: array<Digest>)
    ensures fresh(blobDigests) && blobDigests[..] == Blobs(layers[..], config)
  {
    blobDigests := new Digest[layers.Length + 1](_ => config);
    for i := 0 to layers.Length
      invariant forall j | 0 <= j < blobDigests.Length :: blobDigests[j] == if j < i then layers[j] else config
    {
      blobDigests[i] := layers[i];
    }
  }

  class BlobCopier {
    var sourceMap: map<Digest, RepoSet>

    /** Each digest has a set of its own. */
    ghost predicate Valid()
      reads this
    {
      forall d, d' | d in sourceMap && d' in sourceMap && sourceMap[d] == sourceMap[d'] :: d == d'
    }

    ghost function Sets(): set<RepoSet>
      reads this
    {
      set d <- sourceMap :: sourceMap[d]
    }

    ghost function Known(d: Digest): set<Repo>
      reads this, Sets()
    {
      if d in sourceMap then sourceMap[d].elems else {}
    }

    constructor ()
      ensures Valid() && Sets() == {} && forall d :: Known(d) == {}
    {
      sourceMap := map[];
    }

    /** sources: the set for a digest, made when first asked for. */
    method SourcesOf(d: Digest) returns (s: RepoSet)
      requires Valid()
      modifies this
      ensures Valid() && d in sourceMap && sourceMap[d] == s && fresh(Sets() - old(Sets()))
      ensures old(Sets()) <= Sets() && forall x :: Known(x) == old(Known(x))
    {
      if d in sourceMap {
        return sourceMap[d];
      }
      s := new RepoSet();
      ghost var before := sourceMap;
      sourceMap := sourceMap[d := s];
      assert forall x <- before :: sourceMap[x] == before[x];
    }

    method RegisterSource(d: Digest, repo: Repo)
      requires Valid()
      modifies this, Sets()
      ensures Valid() && fresh(Sets() - old(Sets())) && old(Sets()) <= Sets()
      ensures forall x :: Known(x) == old(Known(x)) + if x == d then {repo} else {}
    {
      var s := SourcesOf(d);
      s.Add(repo);
    }

    /** The first half of CopyAll: all blobs are registered before any is asked for. */
    method KeysFor(src: Repo, dst: Repo, dgsts: seq<Digest>) returns (keys: array<BlobKey>)
      requires Valid()
      modifies this, Sets()
      ensures Valid() && fresh(Sets() - old(Sets())) && fresh(keys)
      ensures forall x :: Known(x) == old(Known(x)) + if x in dgsts then {src} else {}
      ensures keys.Length == |dgsts| && forall i | 0 <= i < |dgsts| :: keys[i] == BlobKey(dgsts[i], dst)
    {
      keys := new BlobKey[|dgsts|](i requires 0 <= i < |dgsts| => BlobKey(dgsts[i], dst));
      for i := 0 to |dgsts|
        invariant Valid() && fresh(Sets() - old(Sets()))
        invariant forall x :: Known(x) == old(Known(x)) + if x in dgsts[..i] then {src} else {}
        invariant forall j | 0 <= j < |dgsts| :: keys[j] == BlobKey(dgsts[j], dst)
      {
        RegisterSource(dgsts[i], src);
        assert dgsts[..i + 1] == dgsts[..i] + [dgsts[i]];
      }
      assert dgsts[..|dgsts|] == dgsts;
    }

    /** The branch of blobIndexer.Submit for a manifest: the configuration first, then the layers. */
    method Submit(repo: Repo, layers: seq<Digest>, config: Digest)
      requires Valid()
      modifies this, Sets()
      ensures Valid() && fresh(Sets() - old(Sets()))
      ensures forall x :: Known(x) == old(Known(x)) + if x in Blobs(layers, config) then {repo} else {}
    {
      RegisterSource(config, repo);
      for i := 0 to |layers|
        invariant Valid() && fresh(Sets() - old(Sets()))
        invariant forall x :: Known(x) == old(Known(x)) + if x in layers[..i] || x == config then {repo} else {}
      {
        RegisterSource(layers[i], repo);
        assert layers[..i + 1] == layers[..i] + [layers[i]];
      }
      assert layers[..|layers|] == layers;
    }

    /** A repository of the registry to mount from, if any is known. */
    method FindMount(all: seq<Repo>, registry: Registry) returns (mount: Option<Repo>)
      ensures mount.Some? ==> mount.value in all && mount.value.registry == registry
      ensures mount.None? ==> forall r <- all :: r.registry != registry
    {
      for i := 0 to |all|
        invariant forall r <- all[..i] :: r.registry != registry
      {
        if all[i].registry == registry {
          return Some(all[i]);
        }
        assert all[..i + 1] == all[..i] + [all[i]];
      }
      assert all[..|all|] == all;
      mount := None;
    }

    /** The shared state agrees with this object on what it knows. */
    ghost predicate Mirrors(g: Shared)
      reads this, Sets()
    {
      forall d :: Sources(g, d) == Known(d)
    }

    /**
     * copyBlob once the destination is known not to be a source: None stands for the crash on an
     * empty list of sources. The path ends where the deferred calls take over.
     */
    method Transfer(e: World, ghost g: Shared, key: BlobKey, srcSet: RepoSet, a: Answers)
      returns (r: Option<bool>, ghost path: seq<Stop>)
      requires Valid() && Mirrors(g) && Honest(e, g, key, a)
      requires key.digest in sourceMap && srcSet == sourceMap[key.digest]
      ensures Path(e, key, path) && path[0] == Stop(g, Heading)
      ensures var last := path[|path| - 1];
        && (r.None? <==> srcSet.elems == {} && a.found == Some(false))
        && (r == Some(true) ==> last.at == Registering && (key.dst, key.digest) in last.g.held.blobs)
        && (r == Some(false) ==> last == Stop(g, Unlocking(false)))
        && last.g.sources == g.sources
      // How it ends, from the answers.
      ensures a.found == None ==> r == Some(false)
      ensures a.found == Some(true) ==> r == Some(true) && path[|path| - 1].g == g
      ensures a.found == Some(false) && srcSet.elems != {} ==>
        Requested(g, path[|path| - 1].g, key, srcSet.elems, a, r)
    {
      path := [Stop(g, Heading)];
      if a.found.None? {
        path := path + [Stop(g, Unlocking(false))];
        return Some(false), path;
      }
      if a.found.value {
        path := path + [Stop(g, Registering)];
        return Some(true), path;
      }
      path := path + [Stop(g, Choosing)];

      var allSources := srcSet.ToSlice();
      assert forall s :: s in Sources(g, key.digest) <==> s in allSources;
      if |allSources| == 0 {
        assert srcSet.elems == {} by { assert forall s :: s !in srcSet.elems; }
        return None, path;
      }
      assert allSources[0] in srcSet.elems;
      r, path := Request(e, g, key, allSources, a, path);
    }

    /** The choice of a source, and of a repository to mount from. */
    method Request(e: World, ghost g: Shared, key: BlobKey, allSources: seq<Repo>, a: Answers, ghost before: seq<Stop>)
      returns (r: Option<bool>, ghost path: seq<Stop>)
      requires Honest(e, g, key, a) && Path(e, key, before) && before[|before| - 1] == Stop(g, Choosing)
      requires allSources != [] && forall s :: s in Sources(g, key.digest) <==> s in allSources
      ensures Path(e, key, path) && path[0] == before[0] && r.Some?
      ensures Requested(g, path[|path| - 1].g, key, Sources(g, key.digest), a, r)
      ensures var last := path[|path| - 1];
        if r == Some(true)
        then last.at == Registering && (key.dst, key.digest) in last.g.held.blobs && last.g.sources == g.sources
        else last == Stop(g, Unlocking(false))
    {
      var source := allSources[0];
      var mount := FindMount(allSources, key.dst.registry);
      assert MayChoose(Sources(g, key.digest), key, source, mount);
      PathGoesOn(e, key, before, Stop(g, Requesting(source, mount)));
      r, path := Upload(e, g, key, source, mount, a, before + [Stop(g, Requesting(source, mount))]);
    }

    /** The request for an upload, and what follows from its answer. */
    method Upload(e: World, ghost g: Shared, key: BlobKey, source: Repo, mount: Option<Repo>, a: Answers,
                  ghost before: seq<Stop>)
      returns (r: Option<bool>, ghost path: seq<Stop>)
      requires Honest(e, g, key, a) && Path(e, key, before)
      requires before[|before| - 1] == Stop(g, Requesting(source, mount))
      ensures Path(e, key, path) && path[0] == before[0] && r == Some(Brings(a, source, mount))
      ensures var last := path[|path| - 1];
        && LeftAs(g, last.g, key, Brings(a, source, mount), Brings(a, source, mount) && a.upload(mount) == Location)
        && if r == Some(true)
           then last.at == Registering && (key.dst, key.digest) in last.g.held.blobs && last.g.sources == g.sources
           else last == Stop(g, Unlocking(false))
    {
      path := before;
      match a.upload(mount) {
        case Refused =>
          PathGoesOn(e, key, path, Stop(g, Unlocking(false)));
          path := path + [Stop(g, Unlocking(false))];
          r := Some(false);
        case Created =>
          ghost var g' := PutBlob(g, key.dst, key.digest);
          PathGoesOn(e, key, path, Stop(g', Registering));
          path := path + [Stop(g', Registering)];
          r := Some(true);
        case Location =>
          PathGoesOn(e, key, path, Stop(g, Transferring(source)));
          r, path := Send(e, g, key, source, a, path + [Stop(g, Transferring(source))]);
      }
    }

    /** Download and upload. */
    method Send(e: World, ghost g: Shared, key: BlobKey, source: Repo, a: Answers, ghost before: seq<Stop>)
      returns (r: Option<bool>, ghost path: seq<Stop>)
      requires Honest(e, g, key, a) && Path(e, key, before) && before[|before| - 1] == Stop(g, Transferring(source))
      ensures Path(e, key, path) && path[0] == before[0] && r == Some(a.sent(source))
      ensures LeftAs(g, path[|path| - 1].g, key, a.sent(source), a.sent(source))
      ensures var last := path[|path| - 1];
        if r == Some(true)
        then last.at == Registering && (key.dst, key.digest) in last.g.held.blobs && last.g.sources == g.sources
        else last == Stop(g, Unlocking(false))
    {
      if !a.sent(source) {
        PathGoesOn(e, key, before, Stop(g, Unlocking(false)));
        return Some(false), before + [Stop(g, Unlocking(false))];
      }
      ghost var g' := PutBlob(g, key.dst, key.digest).(transfers := g.transfers + multiset{MutexOf(key)});
      PathGoesOn(e, key, before, Stop(g', Registering));
      return Some(true), before + [Stop(g', Registering)];
    }

    /** The deferred function: a copy that ended well makes its destination a source. */
    method Announce(e: World, key: BlobKey, r: Option<bool>, ghost before: seq<Stop>) returns (ghost path: seq<Stop>)
      requires Valid() && Path(e, key, before)
      requires r == Some(true) ==> Mirrors(before[|before| - 1].g) && before[|before| - 1].at == Registering
      modifies this, Sets()
      ensures Valid() && fresh(Sets() - old(Sets())) && Path(e, key, path) && path[0] == before[0]
      ensures forall x ::
        Known(x) == old(Known(x)) + if x == key.digest && r == Some(true) then {key.dst} else {}
      ensures if r != Some(true) then path == before else
        var last := path[|path| - 1];
        && last.at == Unlocking(true) && Mirrors(last.g)
        && last.g.held == before[|before| - 1].g.held && last.g.transfers == before[|before| - 1].g.transfers
    {
      path := before;
      if r == Some(true) {
        ghost var g := before[|before| - 1].g;
        RegisterSource(key.digest, key.dst);
        PathGoesOn(e, key, before, Stop(Register(g, key.digest, key.dst), Unlocking(true)));
        path := before + [Stop(Register(g, key.digest, key.dst), Unlocking(true))];
      }
    }

    /** copyBlob from the deferral on, for a destination that is not known as a source. */
    method CopyUnknown(e: World, ghost g: Shared, key: BlobKey, srcSet: RepoSet, a: Answers)
      returns (r: Option<bool>, ghost path: seq<Stop>)
      requires Valid() && Mirrors(g) && Honest(e, g, key, a) && key.dst !in Sources(g, key.digest)
      requires key.digest in sourceMap && srcSet == sourceMap[key.digest]
      modifies this, Sets()
      ensures Valid() && fresh(Sets() - old(Sets()))
      ensures Path(e, key, path) && path[0] == Stop(g, Checking)
      ensures forall x ::
        Known(x) == old(Known(x)) + if x == key.digest && r == Some(true) then {key.dst} else {}
      ensures r.None? ==> old(Known(key.digest)) == {}
      ensures r.Some? ==> path[|path| - 1].at == Unlocking(r.value) && Mirrors(path[|path| - 1].g)
      ensures r == Some(true) ==> (key.dst, key.digest) in path[|path| - 1].g.held.blobs
      ensures Answered(g, path[|path| - 1].g, key, old(Known(key.digest)), a, r)
    {
      ghost var rest;
      r, rest := Transfer(e, g, key, srcSet, a);
      PathStarts(e, key, Stop(g, Checking), rest);
      path := Announce(e, key, r, [Stop(g, Checking)] + rest);
    }

    /**
     * copyBlob, from the lock to the unlock: it follows the steps of the protocol, and registers
     * the destination exactly if it ends well. The key is free when it asks for it; `after` is
     * what it leaves when it has released it.
     */
    method CopyBlob(e: World, ghost g: Shared, key: BlobKey, a: Answers)
      returns (r: Option<bool>, ghost path: seq<Stop>, ghost after: Shared)
      requires Valid() && Mirrors(g) && Honest(e, g, key, a) && MutexOf(key) !in g.locks
      modifies this, Sets()
      ensures Valid() && fresh(Sets() - old(Sets()))
      ensures Path(e, key, path) && path[0] == Stop(g, Locking)
      ensures forall x ::
        Known(x) == old(Known(x)) + if x == key.digest && r == Some(true) then {key.dst} else {}
      ensures r.None? ==> old(Known(key.digest)) == {}
      ensures r.Some? ==> var last := path[|path| - 1];
        BlobStep(e, last.g, key, last.at, after, Done) && last.at == Unlocking(r.value) && Mirrors(after)
      ensures r == Some(true) && key.dst !in old(Known(key.digest)) ==> (key.dst, key.digest) in after.held.blobs
      ensures key.dst in old(Known(key.digest)) ==> r == Some(true) && LeftAs(g, after, key, false, false)
      ensures key.dst !in old(Known(key.digest)) ==> Answered(g, after, key, old(Known(key.digest)), a, r)
    {
      ghost var locked := g.(locks := g.locks + {MutexOf(key)});
      r, path := CopyLocked(e, locked, key, a);
      PathStarts(e, key, Stop(g, Locking), path);
      path := [Stop(g, Locking)] + path;
      after := Unlocked(path[|path| - 1].g, key, r);
      AnsweredAlso(locked, path[|path| - 1].g, g, after, key, old(Known(key.digest)), a, r);
    }

    /** What copyBlob does between lock and unlock. */
    method CopyLocked(e: World, ghost g: Shared, key: BlobKey, a: Answers)
      returns (r: Option<bool>, ghost path: seq<Stop>)
      requires Valid() && Mirrors(g) && Honest(e, g, key, a)
      modifies this, Sets()
      ensures Valid() && fresh(Sets() - old(Sets()))
      ensures Path(e, key, path) && path[0] == Stop(g, Checking)
      ensures forall x ::
        Known(x) == old(Known(x)) + if x == key.digest && r == Some(true) then {key.dst} else {}
      ensures r.None? ==> old(Known(key.digest)) == {}
      ensures r.Some? ==> path[|path| - 1].at == Unlocking(r.value) && Mirrors(path[|path| - 1].g)
      ensures r == Some(true) && key.dst !in old(Known(key.digest)) ==>
        (key.dst, key.digest) in path[|path| - 1].g.held.blobs
      ensures key.dst in old(Known(key.digest)) ==> r == Some(true) && LeftAs(g, path[|path| - 1].g, key, false, false)
      ensures key.dst !in old(Known(key.digest)) ==>
        Answered(g, path[|path| - 1].g, key, old(Known(key.digest)), a, r)
    {
      var srcSet := SourcesOf(key.digest);
      assert srcSet.elems == Sources(g, key.digest);
      if key.dst in srcSet.elems {
        return Some(true), [Stop(g, Checking), Stop(g, Unlocking(true))];
      }
      r, path := CopyUnknown(e, g, key, srcSet, a);
    }
  }
}
