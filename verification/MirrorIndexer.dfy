/** The blob indexer: what it is told of a repository it registers, all of it. */
module MirrorIndexer {
  import opened Names
  import opened Mirror
  import opened MirrorSafety
  import opened MirrorLiveness
  import opened MirrorCauses

  /** The goroutine that indexes a manifest: the repository is listed for all blobs it has got past. */
  ghost predicate IndexingNow(g: Shared, p: Proc, repo: Repo, blobs: seq<Digest>) {
    match p
    case Indexing(r, left) => r == repo && forall d <- blobs :: d in left || repo in Sources(g, d)
    case Done => forall d <- blobs :: repo in Sources(g, d)
    case _ => false
  }

  lemma IndexingStarts(e: World, g: Shared, repo: Repo, doc: Doc, g': Shared, p': Proc, spawn: seq<Proc>)
    requires e.parsed(doc).Manifest? && LocalStep(e, g, Submitting(repo, doc), g', p', spawn)
    ensures IndexingNow(g', p', repo, BlobsOf(e, doc))
  {}

  lemma IndexingGoesOn(e: World, g: Shared, p: Proc, g': Shared, p': Proc, spawn: seq<Proc>, repo: Repo,
                       blobs: seq<Digest>)
    requires IndexingNow(g, p, repo, blobs) && LocalStep(e, g, p, g', p', spawn)
    ensures IndexingNow(g', p', repo, blobs)
  {
    if p.left != [] {
      assert p.left == [p.left[0]] + p.left[1..];
      forall d | d in blobs ensures d in p.left[1..] || repo in Sources(g', d) {
        assert d == p.left[0] || d in p.left[1..] || repo in Sources(g, d);
      }
    }
  }

  lemma IndexingStays(g: Shared, g': Shared, p: Proc, repo: Repo, blobs: seq<Digest>)
    requires IndexingNow(g, p, repo, blobs) && Evolves(g, g')
    ensures IndexingNow(g', p, repo, blobs)
  {
    forall d | d in blobs && repo in Sources(g, d) ensures repo in Sources(g', d) {
      assert Sources(g, d) <= Sources(g', d);
    }
  }

  lemma IndexingMoves(e: World, s: System, move: Move, s': System, i: nat, repo: Repo, doc: Doc)
    requires WorldOk(e) && Inv(e, s) && Moves(e, s, move, s') && i < |s.procs| && e.parsed(doc).Manifest?
    requires s.procs[i] == Submitting(repo, doc) || IndexingNow(s.g, s.procs[i], repo, BlobsOf(e, doc))
    ensures i < |s'.procs|
    ensures s'.procs[i] == Submitting(repo, doc) || IndexingNow(s'.g, s'.procs[i], repo, BlobsOf(e, doc))
  {
    MoveKeeps(e, s, move, s');
    if move.Alone? && move.i == i {
      if s.procs[i].Submitting? {
        IndexingStarts(e, s.g, repo, doc, s'.g, move.p, move.spawn);
      } else {
        IndexingGoesOn(e, s.g, s.procs[i], s'.g, move.p, move.spawn, repo, BlobsOf(e, doc));
      }
    } else if !s.procs[i].Submitting? {
      IndexingStays(s.g, s'.g, s.procs[i], repo, BlobsOf(e, doc));
    }
  }

  lemma {:induction false} TrackIndexing(e: World, run: seq<System>, moves: seq<Move>, m: nat, n: nat, i: nat,
                                         repo: Repo, doc: Doc)
    requires WorldOk(e) && Trace(e, run, moves) && m <= n < |run| && i < |run[m].procs| && e.parsed(doc).Manifest?
    requires run[m].procs[i] == Submitting(repo, doc)
    ensures i < |run[n].procs|
    ensures run[n].procs[i] == Submitting(repo, doc) || IndexingNow(run[n].g, run[n].procs[i], repo, BlobsOf(e, doc))
  {
    if m < n {
      TrackIndexing(e, run, moves, m, n - 1, i, repo, doc);
      TraceLive(e, run, moves, n);
      TraceLive(e, run, moves, n - 1);
      IndexingMoves(e, run[n - 1], moves[n - 1], run[n], i, repo, doc);
    }
  }

  /** When the indexing of a manifest is over, its repository is listed as a source of every one of its blobs. */
  lemma IndexesEveryBlob(e: World, run: seq<System>, moves: seq<Move>, m: nat, n: nat, i: nat, repo: Repo, doc: Doc)
    requires WorldOk(e) && Trace(e, run, moves) && m <= n < |run| && i < |run[m].procs| && i < |run[n].procs|
    requires e.parsed(doc).Manifest? && run[m].procs[i] == Submitting(repo, doc) && run[n].procs[i] == Done
    ensures forall d <- BlobsOf(e, doc) :: repo in Sources(run[n].g, d)
  {
    TrackIndexing(e, run, moves, m, n, i, repo, doc);
  }

  // ---------------------------------------------------------------------------------------
  // Indexes

  /** A goroutine has been started that fetches the manifest and indexes it. */
  ghost predicate FetchStarted(run: seq<System>, n: nat, repo: Repo, d: Digest) {
    exists k: nat :: k <= n && k < |run| && Fetching(repo, d) in run[k].procs
  }

  ghost predicate SpreadingNow(run: seq<System>, n: nat, p: Proc, repo: Repo, ds: seq<Digest>) {
    match p
    case Spreading(r, left) => r == repo && forall d <- ds :: d in left || FetchStarted(run, n, repo, d)
    case Done => forall d <- ds :: FetchStarted(run, n, repo, d)
    case _ => false
  }

  lemma SpreadingMoves(e: World, run: seq<System>, moves: seq<Move>, n: nat, i: nat, repo: Repo, ds: seq<Digest>)
    requires Trace(e, run, moves) && n + 1 < |run| && i < |run[n].procs| && i < |run[n + 1].procs|
    requires SpreadingNow(run, n, run[n].procs[i], repo, ds)
    ensures SpreadingNow(run, n + 1, run[n + 1].procs[i], repo, ds)
  {
    var s, s', move := run[n], run[n + 1], moves[n];
    assert Moves(e, s, move, s');
    forall d | FetchStarted(run, n, repo, d) ensures FetchStarted(run, n + 1, repo, d) {}
    if s'.procs[i] != s.procs[i] && s.procs[i].left != [] {
      var left := s.procs[i].left;
      assert left == [left[0]] + left[1..];
      assert s'.procs[|s.procs|] == Fetching(repo, left[0]);
      assert FetchStarted(run, n + 1, repo, left[0]);
    }
  }

  lemma SpreadingStarts(e: World, run: seq<System>, moves: seq<Move>, n: nat, i: nat, repo: Repo, doc: Doc)
    requires Trace(e, run, moves) && n + 1 < |run| && i < |run[n].procs| && i < |run[n + 1].procs|
    requires e.parsed(doc).Index? && run[n].procs[i] == Submitting(repo, doc)
    ensures run[n + 1].procs[i] == Submitting(repo, doc)
      || SpreadingNow(run, n + 1, run[n + 1].procs[i], repo, e.parsed(doc).manifests)
  {
    assert Moves(e, run[n], moves[n], run[n + 1]);
  }

  lemma {:induction false} TrackSpreading(e: World, run: seq<System>, moves: seq<Move>, m: nat, n: nat, i: nat,
                                          repo: Repo, doc: Doc)
    requires Trace(e, run, moves) && m <= n < |run| && i < |run[m].procs| && e.parsed(doc).Index?
    requires run[m].procs[i] == Submitting(repo, doc)
    ensures i < |run[n].procs|
    ensures run[n].procs[i] == Submitting(repo, doc)
      || SpreadingNow(run, n, run[n].procs[i], repo, e.parsed(doc).manifests)
  {
    if m < n {
      TrackSpreading(e, run, moves, m, n - 1, i, repo, doc);
      assert Moves(e, run[n - 1], moves[n - 1], run[n]);
      if run[n - 1].procs[i].Submitting? {
        SpreadingStarts(e, run, moves, n - 1, i, repo, doc);
      } else {
        SpreadingMoves(e, run, moves, n - 1, i, repo, e.parsed(doc).manifests);
      }
    }
  }

  /** When the indexing of an index is over, a goroutine has been started for every manifest it lists. */
  lemma IndexesEveryManifest(e: World, run: seq<System>, moves: seq<Move>, m: nat, n: nat, i: nat, repo: Repo, doc: Doc)
    requires Trace(e, run, moves) && m <= n < |run| && i < |run[m].procs| && i < |run[n].procs|
    requires e.parsed(doc).Index? && run[m].procs[i] == Submitting(repo, doc) && run[n].procs[i] == Done
    ensures forall d <- e.parsed(doc).manifests :: FetchStarted(run, n, repo, d)
  {
    TrackSpreading(e, run, moves, m, n, i, repo, doc);
  }

  /** Such a goroutine can take up any document that the repository has for the digest. */
  lemma FetchedIsIndexed(e: World, s: System, i: nat, repo: Repo, d: Digest, doc: Doc)
    requires !s.g.panicked && i < |s.procs| && s.procs[i] == Fetching(repo, d)
    requires Finds(e, s.g.held, repo, ByDigest(d), doc)
    ensures Step(e, s, s.(procs := s.procs[i := Submitting(repo, doc)]))
  {
    var s' := s.(procs := s.procs[i := Submitting(repo, doc)]);
    assert s'.procs == s.procs[i := Submitting(repo, doc)] + [];
    assert Moves(e, s, Alone(i, Submitting(repo, doc), []), s');
  }

  /** A copy that has found its destination submits what it found there, whatever it does next. */
  lemma DestinationIsSubmitted(e: World, s: System, move: Move, s': System, found: Doc)
    requires Moves(e, s, move, s') && move.Alone? && s.procs[move.i].CopySpec? && s.procs[move.i].sp.Compare?
    requires s.procs[move.i].sp.dstDoc == Some(found)
    ensures Submitting(s.procs[move.i].spec.dst.repo, found) in s'.procs
  {
    assert s'.procs[|s.procs|] == move.spawn[0];
  }
}
