/** The parallel mode from shared folders to destination. */
module EndToEnd {
  import opened Text
  import opened Receiver
  import opened Transcript
  import opened Convergence
  import opened Tree
  import opened Bundling
  import opened Parallel
  import opened Confluence
  import D = Deletion
  import S = Source
  import Ignore
  import Frames
  import M = Mirror

  /** Whatever the interleaving of producer, handlers and workers: a clean parallel run that delivered
      every unit of a walk over shareable folders leaves each path as the source has it, in the same sense
      as the single stream (`Source.SourceIsMirrored`). */
  lemma ParallelMirrorsSource(env: Env, fold: char -> char, pats: seq<Ignore.Pattern>, roots: seq<Node>,
                              fs: seq<Framing>, trace: seq<Label>, segs: seq<string>)
    requires Frames.Lawful(env.site.codec) && S.Shares(roots) && Ignore.Segments(segs)
    requires env.plan == S.UnitsFor(fold, pats, roots) && S.Framed(env.site.codec, env.plan, fs)
    requires Run(env, Start(env), trace).Some? && (env.stream ==> env.before == map[])
    requires var s := Run(env, Start(env), trace).value;
             D.Clean(s) && forall id: nat | id < |env.plan| :: Delivered(s.links, id)
    ensures var p := env.site.to + segs;
            var after := M.At(D.Final(env, S.ClientTest(fold, pats), Run(env, Start(env), trace).value), p);
            var ignored := Ignore.Ignored(fold, pats, segs, false);
            (forall m | S.SourceFile(roots, segs, m) && !ignored ::
               after == M.Landed(env.site, env.before, DocOf(FileAt(segs, m)), p, false))
            && ((ignored || forall m :: !S.SourceFile(roots, segs, m)) ==>
                  after == if |segs| >= 2 && S.Recorded(fold, pats, roots, segs[0]) && !ignored then None
                      else M.At(env.before, p))
  {
    hide Run, Start, D.Clean, Delivered, D.Final, S.Shares, S.Framed, S.UnitsFor, S.ClientTest, S.SourceFile,
        S.Recorded,
         M.Landed, Ignore.Ignored, Sync, SessionBytes, Settled, M.Distinct, DocOf, Ignore.Segments;
    var st := St(env.before, {}, {}, {}, 0, 0, 0, "");
    S.PassIsSound(env.site, fold, pats, roots, fs);
    S.SourceIsMirrored(env.site, st, fold, pats, roots, fs, segs);
    D.ParallelIsSync(env, S.ClientTest(fold, pats), trace, fs);
    S.SomeSegments(segs);
  }
}
