/** Runs that report success and leave the destination's name without its document. */
module MirrorWitness {
  import opened Names
  import opened Mirror
  import opened MirrorDelivery
  import opened MirrorLiveness
  import opened MirrorCauses
  import opened MirrorUploads
  import opened MirrorSuccess

  lemma Grow(e: World, run: seq<System>, move: Move, s': System)
    requires Run(e, run) && Moves(e, Last(run), move, s')
    ensures Run(e, run + [s'])
  {
    var all := run + [s'];
    assert Step(e, Last(run), s');
    forall n, k | 0 <= n < k < |all| && k == n + 1 ensures Step(e, all[n], all[k]) {
      if k < |run| { assert Step(e, run[n], run[k]); }
    }
  }

  /** One goroutine moves, starting none. */
  lemma Go(e: World, run: seq<System>, i: nat, g': Shared, p': Proc) returns (run': seq<System>)
    requires Run(e, run) && !Last(run).g.panicked && i < |Last(run).procs|
    requires LocalStep(e, Last(run).g, Last(run).procs[i], g', p', []) && g'.held == Last(run).g.held
    ensures Run(e, run') && Last(run') == System(g', Last(run).procs[i := p']) && run'[0] == run[0]
    ensures (forall s <- run :: s.g.held == Last(run).g.held) ==> forall s <- run' :: s.g.held == Last(run).g.held
  {
    var s' := System(g', Last(run).procs[i := p']);
    assert s'.procs == Last(run).procs[i := p'] + [];
    Grow(e, run, Alone(i, p', []), s');
    run' := run + [s'];
  }

  function Begin(held: Holdings, spec: Spec): System {
    System(Shared(held, map[], map[], map[], {}, map[], 0, map[], multiset{}, {}, false),
           [CopySpec(spec, Looking(None, None))])
  }

  // ---------------------------------------------------------------------------------------
  // A destination with both tag and digest

  /**
   * The tag of a destination that has a digest as well may never be set: the destination is looked
   * up by digest, and if that is there, under whatever name, nothing is done.
   */
  lemma TagMayNotStand(e: World, held: Holdings, spec: Spec, doc: Doc) returns (run: seq<System>)
    requires WorldOk(e) && Intact(e, held) && Consistent(spec) && spec.dst.tag != "" && spec.dst.digest.Some?
    requires (spec.src.repo, doc) in held.docs && (spec.dst.repo, doc) in held.docs
    requires e.verifies(spec.dst.digest.value, doc) && (spec.dst.repo, spec.dst.tag) !in held.tags
    ensures Run(e, run) && run[0] == Begin(held, spec)
    ensures Mirrored(spec, doc, [], [], doc) in Last(run).procs
    ensures forall s <- run :: (spec.dst.repo, spec.dst.tag) !in s.g.held.tags
  {
    run := BothFound(e, held, spec, doc);
    var p', spawn := Mirrored(spec, doc, [], [], doc), [Submitting(spec.dst.repo, doc)];
    Grow(e, run, Alone(0, p', spawn), System(Last(run).g, [p'] + spawn));
    run := run + [System(Last(run).g, [p'] + spawn)];
    assert p' in Last(run).procs;
  }

  lemma BothFound(e: World, held: Holdings, spec: Spec, doc: Doc) returns (run: seq<System>)
    requires Intact(e, held) && spec.dst.digest.Some? && spec.dst.digest == spec.src.digest
    requires (spec.src.repo, doc) in held.docs && (spec.dst.repo, doc) in held.docs
    requires e.verifies(spec.dst.digest.value, doc)
    ensures Run(e, run) && run[0] == Begin(held, spec) && forall s <- run :: s.g.held == held
    ensures Last(run).procs == [CopySpec(spec, Compare(Some(doc), doc))] && !Last(run).g.panicked
  {
    run := [Begin(held, spec)];
    var g1 := Stood(run[0].g, spec.dst.repo, FetchName(spec.dst), doc).(dstManifests := map[spec.dst := doc]);
    run := Go(e, run, 0, g1, CopySpec(spec, Looking(Some(Some(doc)), None)));
    var g2 := Stood(g1, spec.src.repo, FetchName(spec.src), doc).(srcManifests := map[spec.src := doc]);
    run := Go(e, run, 0, g2, CopySpec(spec, Looking(Some(Some(doc)), Some(doc))));
    run := Go(e, run, 0, g2, CopySpec(spec, Compare(Some(doc), doc)));
  }

  // ---------------------------------------------------------------------------------------
  // A destination with the digest of an index that cannot be copied as it is

  /**
   * A digest that is not there to begin with, of a document that cannot be copied as it is, never
   * comes to be there, whatever is copied, unless somebody else pushes that document.
   */
  lemma NeverArrives(e: World, run: seq<System>, moves: seq<Move>, n: nat, repo: Repo, d: Digest, doc: Doc)
    requires WorldOk(e) && CollisionFree(e) && Trace(e, run, moves) && n < |run|
    requires e.verifies(d, doc) && !Portable(e, doc)
    requires forall x :: !Finds(e, run[0].g.held, repo, ByDigest(d), x)
    ensures (forall x :: !Finds(e, run[n].g.held, repo, ByDigest(d), x))
      || exists k: nat :: k < n && PushedByOthers(run, moves, k, repo, doc)
  {
    assert !Finds(e, run[0].g.held, repo, ByDigest(d), doc);
    if x :| Finds(e, run[n].g.held, repo, ByDigest(d), x) {
      assert x == doc;
      WhoUploaded(e, run, moves, n, repo, doc);
      if Made(e, doc) { MadeIsPortable(e, doc); }
    }
  }

  /** All moves are of goroutines that copy, and none fails. */
  ghost predicate CopiesAlone(e: World, pick: (Spec, Doc) -> seq<Digest>, run: seq<System>, moves: seq<Move>) {
    && Trace(e, run, moves)
    && forall n, k {:trigger moves[n], run[k]} | 0 <= n < k < |run| && k == n + 1 ::
         Advances(e, pick, run[n], moves[n], run[k])
  }

  /** A single spec with a source in order can be copied without any failure. */
  lemma CopySucceeds(e: World, pick: (Spec, Doc) -> seq<Digest>, held: Holdings, spec: Spec)
    returns (run: seq<System>, moves: seq<Move>)
    requires Regular(e) && Picks(e, pick)
    requires Intact(e, held) && Acceptable(e, spec) && NamesInOrder(e, held, spec.src)
    ensures CopiesAlone(e, pick, run, moves) && run[0] == Begin(held, spec) && Settled(Last(run))
    ensures Last(run).procs != [] && Last(run).procs[0].Mirrored? && Last(run).procs[0].spec == spec
  {
    var first := [Begin(held, spec)];
    run, moves := EverySpecCanSucceed(e, pick, first, []);
    assert run[0] == first[0] && !HarmedBefore(e, run, moves, 0, 0);
    assert forall n, k {:trigger moves[n], run[k]} | 0 <= n < k < |run| && k == n + 1 ::
      Advances(e, pick, run[n], moves[n], run[k]);
  }

  /** All that an index lists. */
  function PickAll(e: World): (Spec, Doc) -> seq<Digest> {
    (_, doc) => if e.parsed(doc).Index? then e.parsed(doc).manifests else []
  }

  /**
   * A destination named by the digest of an index that cannot be copied as it is: the copy can
   * always be run to its end without error, and at no moment is that digest there.
   */
  lemma DigestMayNotStand(e: World, held: Holdings, spec: Spec, index: Doc) returns (run: seq<System>)
    requires Regular(e) && Intact(e, held) && Consistent(spec) && spec.dst.digest.Some?
    requires Finds(e, held, spec.src.repo, FetchName(spec.src), index) && InOrder(e, index) && !Portable(e, index)
    requires Several(e, index) ==> spec.dst.tag != ""
    requires forall doc :: !Finds(e, held, spec.dst.repo, FetchName(spec.dst), doc)
    ensures Run(e, run) && run[0] == Begin(held, spec)
    ensures exists p <- Last(run).procs :: p.Mirrored? && p.spec == spec
    ensures forall s <- run, doc :: !Finds(e, s.g.held, spec.dst.repo, FetchName(spec.dst), doc)
  {
    forall doc | Finds(e, held, spec.src.repo, FetchName(spec.src), doc) ensures doc == index {}
    var all, moves := CopySucceeds(e, PickAll(e), held, spec);
    run := all;
    TraceIsRun(e, run, moves);
    assert Last(run).procs[0] in Last(run).procs;
    assert FetchName(spec.dst) == ByDigest(spec.dst.digest.value);
    forall s, doc | s in run ensures !Finds(e, s.g.held, spec.dst.repo, FetchName(spec.dst), doc) {
      var n: nat :| n < |run| && run[n] == s;
      NeverArrives(e, run, moves, n, spec.dst.repo, spec.dst.digest.value, index);
      forall k: nat | k < n ensures !PushedByOthers(run, moves, k, spec.dst.repo, index) {
        assert Advances(e, PickAll(e), run[k], moves[k], run[k + 1]);
      }
    }
  }
}
