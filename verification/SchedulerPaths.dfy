/** Paths along edges. */
module SchedulerPaths {
  import opened SchedulerState

  lemma EdgePath(s: State, e: EdgeId)
    requires e in s.edges
    ensures IsPath(s, [e], s.edges[e].src, s.edges[e].dst) && HappensBefore(s, s.edges[e].src, s.edges[e].dst)
  {
    assert IsPath(s, [e][1..], s.edges[e].dst, s.edges[e].dst);
    assert IsPath(s, [e], s.edges[e].src, s.edges[e].dst);
  }

  lemma {:induction false} PathsJoin(s: State, es: seq<EdgeId>, fs: seq<EdgeId>, a: PointId, b: PointId, c: PointId)
    requires IsPath(s, es, a, b) && IsPath(s, fs, b, c)
    ensures IsPath(s, es + fs, a, c)
  {
    if es == [] {
      assert es + fs == fs;
    } else {
      assert (es + fs)[0] == es[0] && (es + fs)[1..] == es[1..] + fs;
      PathsJoin(s, es[1..], fs, s.edges[es[0]].dst, b, c);
    }
  }

  lemma HappensBeforeTransitive(s: State, a: PointId, b: PointId, c: PointId)
    requires HappensBefore(s, a, b) && HappensBefore(s, b, c)
    ensures HappensBefore(s, a, c)
  {
    var es: seq<EdgeId> :| es != [] && IsPath(s, es, a, b);
    var fs: seq<EdgeId> :| fs != [] && IsPath(s, fs, b, c);
    PathsJoin(s, es, fs, a, b, c);
  }
}
