/** Where the destination already has what the source has, nothing is copied. */
module MirrorUnchanged {
  import opened Names
  import opened Mirror
  import opened MirrorSafety
  import opened MirrorDelivery
  import opened MirrorLiveness
  import opened MirrorCauses
  import opened MirrorSuccess

  /** The copy of a spec that has asked for nothing, and has not failed to find its destination. */
  predicate Untouched(p: Proc) {
    match p
    case CopySpec(_, Looking(dst, _)) => dst != Some(None)
    case CopySpec(_, Compare(dstDoc, _)) => dstDoc.Some?
    case Mirrored(_, _, asked, _, _) => asked == []
    case Done => true
    case _ => false
  }

  /** All through the run the name stands for this document and no other. */
  ghost predicate StandsFor(e: World, run: seq<System>, n: nat, img: Image, doc: Doc)
    requires n < |run|
  {
    forall k, x | 0 <= k <= n :: Finds(e, run[k].g.held, img.repo, FetchName(img), x) <==> x == doc
  }

  /** The fetch of the destination never fails. */
  ghost predicate DestinationAnswers(e: World, run: seq<System>, moves: seq<Move>, n: nat, i: nat)
    requires n < |run| && |moves| == |run| - 1
  {
    forall k | 0 <= k < n && moves[k].Alone? && moves[k].i == i && i < |run[k].procs| ::
      !Overlooks(e, run[k].g, run[k].procs[i], moves[k].p)
  }

  lemma LookingIsUntouched(e: World, g: Shared, p: Proc, g': Shared, p': Proc, spawn: seq<Proc>, doc: Doc)
    requires p.CopySpec? && p.sp.Looking? && Untouched(p)
    requires LookStep(e, g, p.spec, p.sp.dst, p.sp.src, g', p', spawn)
    requires Finds(e, g.held, p.spec.dst.repo, FetchName(p.spec.dst), doc) && !Overlooks(e, g, p, p')
    ensures Untouched(p')
  {}

  lemma CompareIsUntouched(e: World, g: Shared, p: Proc, g': Shared, p': Proc, spawn: seq<Proc>)
    requires p.CopySpec? && p.sp.Compare? && !p.spec.transform && p.sp.dstDoc == Some(p.sp.srcDoc)
    requires SpecStep(e, g, p.spec, p.sp, g', p', spawn)
    ensures Untouched(p') && p'.Mirrored?
  {}

  /** What a copy compares is what its names stand for. */
  lemma ComparesNames(e: World, run: seq<System>, moves: seq<Move>, n: nat, p: Proc, doc: Doc)
    requires WorldOk(e) && Trace(e, run, moves) && n < |run| && p in run[n].procs && p.CopySpec? && p.sp.Compare?
    requires StandsFor(e, run, n, p.spec.src, doc) && StandsFor(e, run, n, p.spec.dst, doc) && p.sp.dstDoc.Some?
    ensures p.sp.dstDoc == Some(p.sp.srcDoc)
  {
    TraceIsRun(e, run, moves);
    TraceLive(e, run, moves, n);
    assert ProcOk(e, run[n].g, p);
    var j := Stands(e, run, n, p.spec.src.repo, FetchName(p.spec.src), p.sp.srcDoc);
    var k := Stands(e, run, n, p.spec.dst.repo, FetchName(p.spec.dst), p.sp.dstDoc.value);
  }

  /**
   * A spec without a transform whose destination's name stands for the same document as its
   * source's: it asks for no platform, and if it ends without error it has asked for none.
   */
  lemma {:induction false} NothingToCopy(e: World, run: seq<System>, moves: seq<Move>, n: nat, i: nat, doc: Doc)
    requires WorldOk(e) && Trace(e, run, moves) && n < |run| && i < |run[0].procs| && run[0].procs[i].CopySpec?
    requires !run[0].procs[i].spec.transform && DestinationAnswers(e, run, moves, n, i)
    requires StandsFor(e, run, n, run[0].procs[i].spec.src, doc) && StandsFor(e, run, n, run[0].procs[i].spec.dst, doc)
    ensures i < |run[n].procs| && Untouched(run[n].procs[i])
  {
    if n == 0 {
      assert run[0].procs[i] in run[0].procs;
    } else {
      NothingToCopy(e, run, moves, n - 1, i, doc);
      SpecFate(e, run, moves, n - 1, i);
      SpecFate(e, run, moves, n, i);
      UntouchedStep(e, run, moves, n - 1, i, run[0].procs[i].spec, doc);
    }
  }

  lemma UntouchedStep(e: World, run: seq<System>, moves: seq<Move>, n: nat, i: nat, spec: Spec, doc: Doc)
    requires WorldOk(e) && Trace(e, run, moves) && n + 1 < |run| && i < |run[n].procs| && i < |run[n + 1].procs|
    requires !spec.transform && DestinationAnswers(e, run, moves, n + 1, i)
    requires StandsFor(e, run, n, spec.src, doc) && StandsFor(e, run, n, spec.dst, doc)
    requires Untouched(run[n].procs[i]) && (run[n].procs[i] == Done || OnTrack(spec, run[n].procs[i]))
    ensures Untouched(run[n + 1].procs[i])
  {
    var s, s', move := run[n], run[n + 1], moves[n];
    var p := s.procs[i];
    assert Moves(e, s, move, s');
    SpecMoves(e, s, move, s', i, spec);
    if move.Alone? && move.i == i && p.CopySpec? {
      if p.sp.Looking? {
        LookingIsUntouched(e, s.g, p, s'.g, move.p, move.spawn, doc);
      } else {
        ComparesNames(e, run, moves, n, p, doc);
        CompareIsUntouched(e, s.g, p, s'.g, move.p, move.spawn);
      }
    }
  }

  /** A copy that fails at its source ends at once; the fetch of its destination goes on, and its result is kept. */
  lemma SourceFails(e: World, s: System, i: nat, spec: Spec, doc: Doc) returns (t: System, u: System)
    requires !s.g.panicked && i < |s.procs| && s.procs[i] == CopySpec(spec, Looking(None, None))
    requires Finds(e, s.g.held, spec.dst.repo, FetchName(spec.dst), doc) && spec.dst !in s.g.dstManifests
    ensures Step(e, s, t) && t.procs[i] == Done && Step(e, t, u)
    ensures spec.dst in u.g.dstManifests && u.g.dstManifests[spec.dst] == doc
  {
    t := System(s.g, s.procs[i := Done] + [Lingering(spec.dst)]);
    assert Moves(e, s, Alone(i, Done, [Lingering(spec.dst)]), t);
    var g' := Stood(s.g, spec.dst.repo, FetchName(spec.dst), doc).(dstManifests := s.g.dstManifests[spec.dst := doc]);
    u := System(g', t.procs[|s.procs| := Done]);
    assert GetsDestination(e, t.g, spec.dst, g', doc);
    assert u.procs == t.procs[|s.procs| := Done] + [];
    assert Moves(e, t, Alone(|s.procs|, Done, []), u);
  }
}
