/**
 * The copy pipeline as a transition system: copies of specs, platforms and blobs, and the blob
 * indexer, each a goroutine, over registries that only ever gain blobs and manifests.
 */
module Mirror {
  import opened Names

  datatype Digest = Digest(text: string)
  datatype Registry = Registry(host: string)
  datatype Doc = Doc(bytes: string)        // a manifest or index as it is stored

  datatype Repo = Repo(registry: Registry, namespace: string)

  datatype Content =
    | Manifest(layers: seq<Digest>, config: Digest)
    | Index(manifests: seq<Digest>)
    | Unrecognized

  function Blobs(layers: seq<Digest>, config: Digest): seq<Digest> {
    layers + [config]
  }

  /**
   * What is given: how documents parse, their digest by the canonical algorithm, which digests use
   * that algorithm, which digests documents verify against, which registries mount a blob whenever
   * the repository named has it, and how many blob copies may run attached at once.
   */
  datatype World = World(
    parsed: Doc -> Content,
    canonical: Doc -> Digest,
    isCanonical: Digest -> bool,
    verifies: (Digest, Doc) -> bool,
    honours: Registry -> bool,
    limit: nat)

  ghost predicate WorldOk(e: World) {
    && e.limit >= 1
    && (forall doc :: e.verifies(e.canonical(doc), doc))
    && forall d, doc | e.verifies(d, doc) :: e.isCanonical(d) <==> e.canonical(doc) == d
  }

  /** An image of a repository, by tag, by digest or by both. */
  datatype Image = Image(repo: Repo, tag: string, digest: Option<Digest>)

  /** A name under which a repository is asked for a document, or given one. */
  datatype Reference = ByTag(tag: string) | ByDigest(digest: Digest)

  /** What the registries hold, and what their tags stand for at present. */
  datatype Holdings = Holdings(blobs: set<(Repo, Digest)>, docs: set<(Repo, Doc)>, tags: map<(Repo, string), Doc>)

  datatype BlobKey = BlobKey(digest: Digest, dst: Repo)
  datatype MutexKey = MutexKey(digest: Digest, registry: Registry)
  datatype PlatformKey = PlatformKey(src: Image, dst: Image)
  datatype Spec = Spec(src: Image, dst: Image, transform: bool)

  /** A task of a parka map: at most one handler runs per key, and its result is kept. */
  datatype Task<T> = Waiting | Running | Result(value: T)

  datatype BlobPoint =
    | Locking                                            // in LockDetached, attached
    | Detached                                           // waits for the lock outside the limit
    | Reattaching                                        // has the lock, waits for its place
    | Checking
    | Heading
    | Choosing
    | Requesting(source: Repo, mount: Option<Repo>)
    | Transferring(source: Repo)                         // downloading, then uploading
    | Registering                                        // deferred, on success
    | Unlocking(ok: bool)

  datatype PlatformPoint =
    | FetchManifest
    | RegisterBlobs(doc: Doc, left: seq<Digest>)
    | AwaitBlobs(doc: Doc, left: seq<Digest>)
    | UploadManifest(doc: Doc)

  datatype SpecPoint =
    | Looking(dst: Option<Option<Doc>>, src: Option<Doc>)   // both fetches; None while under way
    | Compare(dstDoc: Option<Doc>, srcDoc: Doc)
    | Dispatch(srcDoc: Doc)
    | AwaitPlatforms(srcDoc: Doc, asked: seq<PlatformKey>, got: seq<Doc>)
    | UploadIndex(srcDoc: Doc, asked: seq<PlatformKey>, got: seq<Doc>)

  datatype Proc =
    | Done
    | CopySpec(spec: Spec, sp: SpecPoint)
    | Mirrored(spec: Spec, srcDoc: Doc, asked: seq<PlatformKey>, got: seq<Doc>, top: Doc)  // without error
    | CopyPlatform(key: PlatformKey, pp: PlatformPoint)
    | CopyBlob(blob: BlobKey, bp: BlobPoint)
    | Lingering(img: Image)                              // a destination's fetch that outlives copySpec
    | Submitting(repo: Repo, doc: Doc)                   // blobIndexer.Submit
    | Fetching(repo: Repo, digest: Digest)               // a goroutine of queueManifestsFromIndex
    | Spreading(repo: Repo, left: seq<Digest>)           // its loop
    | Indexing(repo: Repo, left: seq<Digest>)            // registering a destination's blobs

  /**
   * `srcManifests` and `dstManifests` are the two manifest caches, and `attached` is the number of
   * blob copies that count against the limit. Two histories: `transfers` has the completed
   * downloads-and-uploads, and `stood` what has been found or put under a name.
   */
  datatype Shared = Shared(
    held: Holdings,
    srcManifests: map<Image, Doc>,
    dstManifests: map<Image, Doc>,
    sources: map<Digest, set<Repo>>,
    locks: set<MutexKey>,
    blobs: map<BlobKey, Task<bool>>,
    attached: int,
    platforms: map<PlatformKey, Task<Option<Doc>>>,
    transfers: multiset<MutexKey>,
    stood: set<(Repo, Reference, Doc)>,
    panicked: bool)

  datatype System = System(g: Shared, procs: seq<Proc>)

  function Sources(g: Shared, d: Digest): set<Repo> {
    if d in g.sources then g.sources[d] else {}
  }

  /** RegisterSource. */
  function Register(g: Shared, d: Digest, repo: Repo): Shared {
    g.(sources := g.sources[d := Sources(g, d) + {repo}])
  }

  function PutBlob(g: Shared, repo: Repo, d: Digest): Shared {
    g.(held := g.held.(blobs := g.held.blobs + {(repo, d)}))
  }

  /** getManifest asks for the digest if there is one. */
  function FetchName(img: Image): Reference {
    if img.digest.Some? then ByDigest(img.digest.value) else ByTag(img.tag)
  }

  /** uploadManifest prefers the tag, and falls back on the document's own digest. */
  function UploadName(e: World, img: Image, doc: Doc): Reference {
    if img.tag != "" then ByTag(img.tag)
    else if img.digest.Some? then ByDigest(img.digest.value)
    else ByDigest(e.canonical(doc))
  }

  /** What a registry has under a name; for a digest, only what verifies against it. */
  predicate Finds(e: World, held: Holdings, repo: Repo, name: Reference, doc: Doc) {
    && (repo, doc) in held.docs
    && match name
       case ByTag(tag) => (repo, tag) in held.tags && held.tags[(repo, tag)] == doc
       case ByDigest(d) => e.verifies(d, doc)
  }

  function Stood(g: Shared, repo: Repo, name: Reference, doc: Doc): Shared {
    g.(stood := g.stood + {(repo, name, doc)})
  }

  /** Map.Get on the cache of source manifests: what it has, or what the registry has now. */
  predicate GetsSource(e: World, g: Shared, img: Image, g': Shared, doc: Doc) {
    if img in g.srcManifests then g' == g && doc == g.srcManifests[img]
    else
      && Finds(e, g.held, img.repo, FetchName(img), doc)
      && g' == Stood(g, img.repo, FetchName(img), doc).(srcManifests := g.srcManifests[img := doc])
  }

  predicate GetsDestination(e: World, g: Shared, img: Image, g': Shared, doc: Doc) {
    if img in g.dstManifests then g' == g && doc == g.dstManifests[img]
    else
      && Finds(e, g.held, img.repo, FetchName(img), doc)
      && g' == Stood(g, img.repo, FetchName(img), doc).(dstManifests := g.dstManifests[img := doc])
  }

  function Added(held: Holdings, repo: Repo, name: Reference, doc: Doc): Holdings {
    held.(docs := held.docs + {(repo, doc)},
          tags := if name.ByTag? then held.tags[(repo, name.tag) := doc] else held.tags)
  }

  /** uploadManifest; the registry accepts under a digest only what verifies against it. */
  function PutDoc(e: World, g: Shared, img: Image, doc: Doc): Shared {
    var name := UploadName(e, img, doc);
    g.(held := Added(g.held, img.repo, name, doc), stood := g.stood + {(img.repo, name, doc)})
  }

  predicate Accepts(e: World, img: Image, doc: Doc) {
    UploadName(e, img, doc).ByDigest? ==> e.verifies(UploadName(e, img, doc).digest, doc)
  }

  function MutexOf(key: BlobKey): MutexKey {
    MutexKey(key.digest, key.dst.registry)
  }

  // ---------------------------------------------------------------------------------------
  // copyBlob

  predicate BlobStep(e: World, g: Shared, key: BlobKey, at: BlobPoint, g': Shared, p': Proc) {
    var d, dst := key.digest, key.dst;
    match at
    case Locking =>
      if MutexOf(key) in g.locks then g' == g.(attached := g.attached - 1) && p' == CopyBlob(key, Detached)
      else g' == g.(locks := g.locks + {MutexOf(key)}) && p' == CopyBlob(key, Checking)
    case Detached =>
      MutexOf(key) !in g.locks && g' == g.(locks := g.locks + {MutexOf(key)}) && p' == CopyBlob(key, Reattaching)
    case Reattaching =>
      g.attached < e.limit && g' == g.(attached := g.attached + 1) && p' == CopyBlob(key, Checking)
    case Checking =>
      g' == g && p' == CopyBlob(key, if dst in Sources(g, d) then Unlocking(true) else Heading)
    case Heading =>
      && g' == g
      && ( || (p' == CopyBlob(key, Registering) && (dst, d) in g.held.blobs)
           || p' == CopyBlob(key, Choosing)
           || p' == CopyBlob(key, Unlocking(false)))
    case Choosing =>
      if Sources(g, d) == {} then g' == g.(panicked := true) && p' == Done
      else
        && g' == g && p'.CopyBlob? && p'.bp.Requesting? && p' == CopyBlob(key, p'.bp)
        && p'.bp.source in Sources(g, d)
        && (p'.bp.mount.Some? ==> p'.bp.mount.value in Sources(g, d) && p'.bp.mount.value.registry == dst.registry)
        && (p'.bp.mount.None? ==> forall r <- Sources(g, d) :: r.registry != dst.registry)
    case Requesting(source, mount) =>
      || (g' == PutBlob(g, dst, d) && p' == CopyBlob(key, Registering)                  // created
          && ((mount.Some? && (mount.value, d) in g.held.blobs) || (dst, d) in g.held.blobs))
      || (g' == g && p' == CopyBlob(key, Transferring(source))                          // upload URL
          && (mount.Some? && (mount.value, d) in g.held.blobs ==> !e.honours(dst.registry)))
      || (g' == g && p' == CopyBlob(key, Unlocking(false)))
    case Transferring(source) =>
      || (g' == PutBlob(g, dst, d).(transfers := g.transfers + multiset{MutexOf(key)})
          && p' == CopyBlob(key, Registering) && (source, d) in g.held.blobs)
      || (g' == g && p' == CopyBlob(key, Unlocking(false)))
    case Registering =>
      g' == Register(g, d, dst) && p' == CopyBlob(key, Unlocking(true))
    case Unlocking(ok) =>
      && g' == g.(locks := g.locks - {MutexOf(key)}, blobs := g.blobs[key := Result(ok)], attached := g.attached - 1)
      && p' == Done
  }

  // ---------------------------------------------------------------------------------------
  // copyPlatform

  /** Map.Inform: keys the map does not know get a task. */
  function InformBlobs(g: Shared, dst: Repo, ds: seq<Digest>): Shared {
    g.(blobs := (map d <- ds :: BlobKey(d, dst) := Waiting) + g.blobs)
  }

  function PlatformDone(g: Shared, key: PlatformKey, r: Option<Doc>): Shared {
    g.(platforms := g.platforms[key := Result(r)])
  }

  function BlobsOf(e: World, doc: Doc): seq<Digest>
    requires e.parsed(doc).Manifest?
  {
    Blobs(e.parsed(doc).layers, e.parsed(doc).config)
  }

  /** The manifest goes under the tag, if there is one, or else under its canonical digest. */
  function Target(e: World, dst: Image, doc: Doc): Image {
    dst.(digest := Some(e.canonical(doc)))
  }

  predicate PlatformStep(e: World, g: Shared, key: PlatformKey, at: PlatformPoint, g': Shared, p': Proc) {
    match at
    case FetchManifest =>
      || PlatformFails(g, key, g', p')
      || ( && p'.CopyPlatform? && p'.pp.RegisterBlobs?
           && GetsSource(e, g, key.src, g', p'.pp.doc) && e.parsed(p'.pp.doc).Manifest?
           && p' == CopyPlatform(key, RegisterBlobs(p'.pp.doc, BlobsOf(e, p'.pp.doc))))
    case RegisterBlobs(doc, left) =>
      if left != [] then
        g' == Register(g, left[0], key.src.repo) && p' == CopyPlatform(key, RegisterBlobs(doc, left[1..]))
      else
        e.parsed(doc).Manifest? && g' == InformBlobs(g, key.dst.repo, BlobsOf(e, doc))
        && p' == CopyPlatform(key, AwaitBlobs(doc, BlobsOf(e, doc)))
    case AwaitBlobs(doc, left) =>
      if left == [] then g' == g && p' == CopyPlatform(key, UploadManifest(doc))
      else
        var blob := BlobKey(left[0], key.dst.repo);
        && blob in g.blobs && g.blobs[blob].Result?
        && if g.blobs[blob].value then g' == g && p' == CopyPlatform(key, AwaitBlobs(doc, left[1..]))
           else PlatformFails(g, key, g', p')
    case UploadManifest(doc) =>
      || PlatformFails(g, key, g', p')
      || (g' == PlatformDone(PutDoc(e, g, Target(e, key.dst, doc), doc), key, Some(doc)) && p' == Done)
  }

  predicate PlatformFails(g: Shared, key: PlatformKey, g': Shared, p': Proc) {
    g' == PlatformDone(g, key, None) && p' == Done
  }

  // ---------------------------------------------------------------------------------------
  // copySpec and copyIndex

  function InformPlatforms(g: Shared, keys: seq<PlatformKey>): Shared {
    g.(platforms := (map k <- keys :: k := Waiting) + g.platforms)
  }

  /** platformCopier.CopyAll: one key for each digest selected. */
  function IndexKeys(spec: Spec, ds: seq<Digest>): seq<PlatformKey> {
    seq(|ds|, i requires 0 <= i < |ds| =>
      PlatformKey(ByItsDigest(spec.src.repo, ds[i]), ByItsDigest(spec.dst.repo, ds[i])))
  }

  function ByItsDigest(repo: Repo, d: Digest): Image {
    Image(repo, "", Some(d))
  }

  function CanonicalAll(e: World, docs: seq<Doc>): seq<Digest> {
    seq(|docs|, i requires 0 <= i < |docs| => e.canonical(docs[i]))
  }

  /** The platforms asked for: the image itself, or those selected from an index. */
  ghost predicate Asks(e: World, spec: Spec, srcDoc: Doc, asked: seq<PlatformKey>) {
    match e.parsed(srcDoc)
    case Manifest(_, _) => asked == [PlatformKey(spec.src, spec.dst)]
    case Index(ds) => exists selected: seq<Digest> :: Selects(spec, ds, selected) && asked == KeysOf(spec, selected)
    case Unrecognized => false
  }

  ghost predicate Selects(spec: Spec, ds: seq<Digest>, selected: seq<Digest>) {
    selected != [] && (forall d <- selected :: d in ds) && (!spec.transform ==> selected == ds)
  }

  /** A single selected manifest takes the place of the index. */
  function KeysOf(spec: Spec, selected: seq<Digest>): seq<PlatformKey> {
    if |selected| == 1 then [PlatformKey(ByItsDigest(spec.src.repo, selected[0]), spec.dst)]
    else IndexKeys(spec, selected)
  }

  /** The index to upload: the source's own, unless platforms are limited or some digest has changed. */
  ghost predicate Assembles(e: World, spec: Spec, srcDoc: Doc, got: seq<Doc>, index: Doc) {
    && e.parsed(index) == Index(CanonicalAll(e, got))
    && (!spec.transform && e.parsed(srcDoc) == Index(CanonicalAll(e, got)) ==> index == srcDoc)
  }

  /** The two fetches run side by side; an error of the source's ends the copy at once. */
  predicate LookStep(e: World, g: Shared, spec: Spec, dst: Option<Option<Doc>>, src: Option<Doc>,
                     g': Shared, p': Proc, spawn: seq<Proc>)
  {
    || (src.None? && g' == g && p' == Done && spawn == if dst.None? then [Lingering(spec.dst)] else [])
    || (spawn == [] && p'.CopySpec? && p' == CopySpec(spec, p'.sp)
        && ( || (dst.Some? && src.Some? && g' == g && p'.sp == Compare(dst.value, src.value))
             || (dst.None? && p'.sp == Looking(Some(None), src) && g' == g)
             || (dst.None? && p'.sp.Looking? && p'.sp.dst.Some? && p'.sp.dst.value.Some?
                 && p'.sp == Looking(p'.sp.dst, src) && GetsDestination(e, g, spec.dst, g', p'.sp.dst.value.value))
             || (src.None? && p'.sp.Looking? && p'.sp.src.Some? && p'.sp == Looking(dst, p'.sp.src)
                 && GetsSource(e, g, spec.src, g', p'.sp.src.value))))
  }

  ghost predicate SpecStep(e: World, g: Shared, spec: Spec, at: SpecPoint, g': Shared, p': Proc, spawn: seq<Proc>) {
    match at
    case Looking(dst, src) => LookStep(e, g, spec, dst, src, g', p', spawn)
    case Compare(dstDoc, srcDoc) =>
      && g' == g
      && spawn == (if dstDoc.Some? then [Submitting(spec.dst.repo, dstDoc.value)] else [])
      && p' == if dstDoc == Some(srcDoc) && !spec.transform then Mirrored(spec, srcDoc, [], [], srcDoc)
               else CopySpec(spec, Dispatch(srcDoc))
    case Dispatch(srcDoc) =>
      && spawn == []
      && ( || (g' == g && p' == Done)
           || (p'.CopySpec? && p'.sp.AwaitPlatforms?
               && p' == CopySpec(spec, AwaitPlatforms(srcDoc, p'.sp.asked, []))
               && Asks(e, spec, srcDoc, p'.sp.asked) && g' == InformPlatforms(g, p'.sp.asked)))
    case AwaitPlatforms(srcDoc, asked, got) =>
      && spawn == [] && g' == g
      && if |got| < |asked| then
           var key := asked[|got|];
           && key in g.platforms && g.platforms[key].Result?
           && p' == if g.platforms[key].value.None? then Done
                    else CopySpec(spec, AwaitPlatforms(srcDoc, asked, got + [g.platforms[key].value.value]))
         else
           p' == if |got| == 1 then Mirrored(spec, srcDoc, asked, got, got[0])
                 else CopySpec(spec, UploadIndex(srcDoc, asked, got))
    case UploadIndex(srcDoc, asked, got) =>
      && spawn == []
      && ( || (g' == g && p' == Done)
           || (p'.Mirrored? && p' == Mirrored(spec, srcDoc, asked, got, p'.top)
               && Assembles(e, spec, srcDoc, got, p'.top) && Accepts(e, spec.dst, p'.top)
               && g' == PutDoc(e, g, spec.dst, p'.top)))
  }

  // ---------------------------------------------------------------------------------------
  // blobIndexer, and what else runs in the background

  ghost predicate IndexerStep(e: World, g: Shared, p: Proc, g': Shared, p': Proc, spawn: seq<Proc>)
    requires p.Lingering? || p.Submitting? || p.Fetching? || p.Spreading? || p.Indexing?
  {
    match p
    case Lingering(img) =>
      p' == Done && spawn == [] && (g' == g || exists doc :: GetsDestination(e, g, img, g', doc))
    case Submitting(repo, doc) =>
      g' == g && spawn == []
      && (match e.parsed(doc)
          case Manifest(layers, config) => p' == Indexing(repo, [config] + layers)
          case Index(ds) => p' == Spreading(repo, ds)
          case Unrecognized => p' == Done)
    case Fetching(repo, d) =>
      g' == g && spawn == []
      && (p' == Done || (p'.Submitting? && p'.repo == repo && Finds(e, g.held, repo, ByDigest(d), p'.doc)))
    case Spreading(repo, left) =>
      g' == g
      && if left == [] then p' == Done && spawn == []
         else p' == Spreading(repo, left[1..]) && spawn == [Fetching(repo, left[0])]
    case Indexing(repo, left) =>
      spawn == []
      && if left == [] then g' == g && p' == Done
         else g' == Register(g, left[0], repo) && p' == Indexing(repo, left[1..])
  }

  ghost predicate LocalStep(e: World, g: Shared, p: Proc, g': Shared, p': Proc, spawn: seq<Proc>) {
    match p
    case Done => false
    case Mirrored(_, _, _, _, _) => false
    case CopySpec(spec, at) => SpecStep(e, g, spec, at, g', p', spawn)
    case CopyPlatform(key, at) => spawn == [] && PlatformStep(e, g, key, at, g', p')
    case CopyBlob(key, at) => spawn == [] && BlobStep(e, g, key, at, g', p')
    case _ => IndexerStep(e, g, p, g', p', spawn)
  }

  /** A worker of one of the maps takes up a waiting task; only the map of blobs is limited. */
  predicate Starts(e: World, g: Shared, g': Shared, p: Proc) {
    || (p.CopyBlob? && p.bp.Locking? && p.blob in g.blobs && g.blobs[p.blob] == Waiting && g.attached < e.limit
        && g' == g.(blobs := g.blobs[p.blob := Running], attached := g.attached + 1))
    || (p.CopyPlatform? && p.pp.FetchManifest? && p.key in g.platforms && g.platforms[p.key] == Waiting
        && g' == g.(platforms := g.platforms[p.key := Running]))
  }

  /** Referential integrity: a manifest's blobs, and an index's manifests, are in its repository. */
  ghost predicate Intact(e: World, held: Holdings) {
    forall repo, doc | (repo, doc) in held.docs :: Complete(e, held, repo, doc)
  }

  ghost predicate Complete(e: World, held: Holdings, repo: Repo, doc: Doc) {
    match e.parsed(doc)
    case Manifest(layers, config) => forall d <- Blobs(layers, config) :: (repo, d) in held.blobs
    case Index(ds) => forall d <- ds :: exists part :: (repo, part) in held.docs && e.verifies(d, part)
    case Unrecognized => true
  }

  ghost predicate Grows(held: Holdings, held': Holdings) {
    held.blobs <= held'.blobs && held.docs <= held'.docs
  }

  datatype Move =
    | Alone(i: nat, p: Proc, spawn: seq<Proc>)
    | Start(p: Proc)
    | Others                                  // other users push content and move tags

  ghost predicate Moves(e: World, s: System, move: Move, s': System) {
    && !s.g.panicked
    && match move
       case Alone(i, p', spawn) =>
         i < |s.procs| && LocalStep(e, s.g, s.procs[i], s'.g, p', spawn) && s'.procs == s.procs[i := p'] + spawn
       case Start(p) => Starts(e, s.g, s'.g, p) && s'.procs == s.procs + [p]
       case Others =>
         Grows(s.g.held, s'.g.held) && Intact(e, s'.g.held) && s' == s.(g := s.g.(held := s'.g.held))
  }

  ghost predicate Step(e: World, s: System, s': System) {
    exists move :: Moves(e, s, move, s')
  }

  ghost predicate Init(e: World, s: System) {
    && Intact(e, s.g.held)
    && s.g == Shared(s.g.held, map[], map[], map[], {}, map[], 0, map[], multiset{}, {}, false)
    && forall p <- s.procs :: p.CopySpec? && p.sp == Looking(None, None)
  }

  ghost predicate Run(e: World, run: seq<System>) {
    && run != [] && Init(e, run[0])
    && forall n, k {:trigger Step(e, run[n], run[k])} | 0 <= n < k < |run| && k == n + 1 :: Step(e, run[n], run[k])
  }
}
