/**
 * Chart handling for one song: the representative chart (`select_surface`)
 * and the chart-type signature ("SD", "DX", "SD/DX").
 */
module Charts {
  import opened Wrappers
  import opened Songs

  /** A chart lifted out of its group and tagged with the group's chart type. */
  datatype TaggedChart = TaggedChart(kind: string, chart: Chart)

  function Tagged(g: ChartGroup): (r: seq<TaggedChart>)
    ensures |r| == |g.charts|
    ensures forall k :: 0 <= k < |r| ==> r[k] == TaggedChart(g.kind, g.charts[k])
  {
    seq(|g.charts|, k requires 0 <= k < |g.charts| => TaggedChart(g.kind, g.charts[k]))
  }

  /**
   * All charts of all groups, group by group, each in its group's order.
   * The list is empty exactly when every group is empty.
   */
  function Flatten(gs: seq<ChartGroup>): (r: seq<TaggedChart>)
    ensures |r| == 0 <==> forall k :: 0 <= k < |gs| ==> |gs[k].charts| == 0
  {
    if |gs| == 0 then []
    else
      var init := gs[..|gs| - 1];
      assert forall k :: 0 <= k < |init| ==> init[k] == gs[k];
      Flatten(init) + Tagged(gs[|gs| - 1])
  }

  /** Flattening one more group appends that group's tagged charts. */
  lemma FlattenStep(gs: seq<ChartGroup>, i: nat)
    requires i < |gs|
    ensures Flatten(gs[..i + 1]) == Flatten(gs[..i]) + Tagged(gs[i])
  {
    assert gs[..i + 1][..i] == gs[..i];
  }

  /** Flattening keeps exactly the charts of the groups, each tagged with its own group's type. */
  lemma {:induction false} FlattenContents(gs: seq<ChartGroup>)
    ensures forall t :: t in Flatten(gs) <==>
      exists k, j :: 0 <= k < |gs| && 0 <= j < |gs[k].charts| && t == TaggedChart(gs[k].kind, gs[k].charts[j])
  {
    if |gs| > 0 {
      var init := gs[..|gs| - 1];
      FlattenContents(init);
      forall t | t in Flatten(gs)
        ensures exists k, j :: 0 <= k < |gs| && 0 <= j < |gs[k].charts| && t == TaggedChart(gs[k].kind, gs[k].charts[j])
      {
        if t in Flatten(init) {
          var k, j :| 0 <= k < |init| && 0 <= j < |init[k].charts| && t == TaggedChart(init[k].kind, init[k].charts[j]);
          assert init[k] == gs[k];
        } else {
          var j :| 0 <= j < |Tagged(gs[|gs| - 1])| && Tagged(gs[|gs| - 1])[j] == t;
          assert t == TaggedChart(gs[|gs| - 1].kind, gs[|gs| - 1].charts[j]);
        }
      }
      forall k, j | 0 <= k < |gs| && 0 <= j < |gs[k].charts|
        ensures TaggedChart(gs[k].kind, gs[k].charts[j]) in Flatten(gs)
      {
        if k < |gs| - 1 {
          assert init[k] == gs[k];
        } else {
          assert Tagged(gs[k])[j] == TaggedChart(gs[k].kind, gs[k].charts[j]);
        }
      }
    }
  }

  /** The sort key for the difficulty tier: a missing tier counts as -1. */
  function DiffRank(t: TaggedChart): real
  {
    match t.chart.difficulty
    case Some(d) => d as real
    case None => -1.0
  }

  /** The sort key for the level: a missing level counts as 0. */
  function LevelRank(t: TaggedChart): real
  {
    match t.chart.levelValue
    case Some(v) => v
    case None => 0.0
  }

  /** m is where `max(xs, key=key)` stops: a largest key, and no earlier element has as large a key. */
  ghost predicate IsFirstMax(xs: seq<TaggedChart>, key: TaggedChart -> real, m: int)
  {
    && 0 <= m < |xs|
    && (forall j :: 0 <= j < |xs| ==> key(xs[j]) <= key(xs[m]))
    && (forall j :: 0 <= j < m ==> key(xs[j]) < key(xs[m]))
  }

  /** Python's `max` with a key over a non-empty list: the first element with the largest key. */
  function FirstMax(xs: seq<TaggedChart>, key: TaggedChart -> real): (m: nat)
    requires |xs| > 0
    ensures IsFirstMax(xs, key, m)
  {
    if |xs| == 1 then 0
    else
      var k := FirstMax(xs[..|xs| - 1], key);
      if key(xs[|xs| - 1]) > key(xs[k]) then |xs| - 1 else k
  }

  /** The charts whose difficulty field equals d (absent only equals absent), in order. */
  function Candidates(xs: seq<TaggedChart>, d: Option<int>): (c: seq<TaggedChart>)
    ensures forall t :: t in c <==> t in xs && t.chart.difficulty == d
  {
    if |xs| == 0 then []
    else
      var last := xs[|xs| - 1];
      assert forall t :: t in xs <==> t in xs[..|xs| - 1] || t == last;
      Candidates(xs[..|xs| - 1], d) + (if last.chart.difficulty == d then [last] else [])
  }

  /** Filtering one more element appends it when its difficulty field matches. */
  lemma CandidatesStep(xs: seq<TaggedChart>, k: nat, d: Option<int>)
    requires k < |xs|
    ensures Candidates(xs[..k + 1], d) == Candidates(xs[..k], d) + (if xs[k].chart.difficulty == d then [xs[k]] else [])
  {
    assert xs[..k + 1][..k] == xs[..k];
  }

  /**
   * The representative chart of a flattened list: nothing for an empty list;
   * otherwise the first chart of highest tier, and, when several charts share
   * that chart's difficulty field, the first of them with the highest level.
   */
  function Representative(xs: seq<TaggedChart>): (r: Option<TaggedChart>)
    ensures r.None? <==> |xs| == 0
    ensures r.Some? ==> r.value in xs
    ensures r.Some? ==> forall t :: t in xs ==> DiffRank(t) <= DiffRank(r.value)
    ensures r.Some? ==> forall t :: t in xs && t.chart.difficulty == r.value.chart.difficulty ==> LevelRank(t) <= LevelRank(r.value)
    ensures r.Some? ==> r.value.chart.difficulty == xs[FirstMax(xs, DiffRank)].chart.difficulty
  {
    if |xs| == 0 then None
    else
      var top := xs[FirstMax(xs, DiffRank)];
      var cands := Candidates(xs, top.chart.difficulty);
      assert top in cands;
      if |cands| > 1 then
        var best := cands[FirstMax(cands, LevelRank)];
        assert best in cands;
        assert forall t :: t in xs && t.chart.difficulty == best.chart.difficulty ==> t in cands;
        Some(best)
      else
        assert cands == [top];
        Some(top)
  }

  /**
   * The k-th candidate sits at an index i of the list, and the candidates
   * before it are exactly those found in the list before i.
   */
  lemma {:induction false} CandidatesPrefix(xs: seq<TaggedChart>, d: Option<int>, k: nat) returns (i: nat)
    requires k < |Candidates(xs, d)|
    ensures i < |xs| && xs[i] == Candidates(xs, d)[k] && Candidates(xs[..i], d) == Candidates(xs, d)[..k]
  {
    var n := |xs| - 1;
    var c := Candidates(xs, d);
    var init := xs[..n];
    var ci := Candidates(init, d);
    var tail := if xs[n].chart.difficulty == d then [xs[n]] else [];
    assert c == ci + tail;
    if k < |ci| {
      i := CandidatesPrefix(init, d, k);
      assert init[..i] == xs[..i];
      assert (ci + tail)[..k] == ci[..k];
    } else {
      i := n;
      assert (ci + tail)[..k] == ci;
    }
  }

  /**
   * Which chart `select_surface` returns when several qualify: among the
   * charts with the first highest-tier chart's difficulty field, the one at
   * the first index whose level no earlier such chart reaches.
   */
  lemma RepresentativeIsFirstBest(xs: seq<TaggedChart>)
    requires |xs| > 0
    ensures var r := Representative(xs).value;
      exists i :: 0 <= i < |xs| && xs[i] == r
        && forall j :: 0 <= j < i && xs[j].chart.difficulty == r.chart.difficulty ==> LevelRank(xs[j]) < LevelRank(r)
  {
    var top := xs[FirstMax(xs, DiffRank)];
    var d := top.chart.difficulty;
    var cands := Candidates(xs, d);
    assert top in cands;
    var m := if |cands| > 1 then FirstMax(cands, LevelRank) else 0;
    RepresentativeByBranch(xs, top, cands);
    assert |cands| <= 1 ==> cands == [top];
    var r := Representative(xs).value;
    assert r == cands[m];
    var i := CandidatesPrefix(xs, d, m);
    forall j | 0 <= j < i && xs[j].chart.difficulty == r.chart.difficulty
      ensures LevelRank(xs[j]) < LevelRank(r)
    {
      assert xs[j] == xs[..i][j];
      assert xs[j] in Candidates(xs[..i], d);
      var j' :| 0 <= j' < m && cands[j'] == xs[j];
    }
  }

  /**
   * A chart with a missing tier and one with an explicit tier of -1 rank the
   * same, yet the tie filter tells them apart: the first is shown alone,
   * although the second has the higher level.
   */
  lemma MissingTierIsNotMinusOne()
    ensures var c, d := TaggedChart("dx", Chart(None, Some(14.0), None)), TaggedChart("dx", Chart(Some(-1), Some(15.0), None));
      Representative([c, d]) == Some(c)
  {
    var c, d := TaggedChart("dx", Chart(None, Some(14.0), None)), TaggedChart("dx", Chart(Some(-1), Some(15.0), None));
    assert FirstMax([c, d], DiffRank) == 0;
    assert [c, d][..1] == [c] && [c][..0] == [];
    assert Candidates([c], None) == [c];
    assert Candidates([c, d], None) == [c];
  }

  /** The two branches of `select_surface` after collecting: several candidates, or the top chart alone. */
  lemma RepresentativeByBranch(xs: seq<TaggedChart>, top: TaggedChart, cands: seq<TaggedChart>)
    requires |xs| > 0 && top == xs[FirstMax(xs, DiffRank)]
    requires cands == Candidates(xs, top.chart.difficulty)
    ensures |cands| > 1 ==> Representative(xs) == Some(cands[FirstMax(cands, LevelRank)])
    ensures |cands| <= 1 ==> Representative(xs) == Some(top)
  {
  }

  /** The choosing half of `select_surface`: nothing for no charts, else the hardest chart. */
  method PickHardest(lst: seq<TaggedChart>) returns (r: Option<TaggedChart>)
    ensures r == Representative(lst)
  {
    if |lst| == 0 {
      return None;
    }
    var maxDiff := lst[FirstMax(lst, DiffRank)];
    var cands: seq<TaggedChart> := [];
    var k := 0;
    while k < |lst|
      invariant 0 <= k <= |lst|
      invariant cands == Candidates(lst[..k], maxDiff.chart.difficulty)
    {
      CandidatesStep(lst, k, maxDiff.chart.difficulty);
      if lst[k].chart.difficulty == maxDiff.chart.difficulty {
        cands := cands + [lst[k]];
      }
      k := k + 1;
    }
    assert lst[..|lst|] == lst;
    RepresentativeByBranch(lst, maxDiff, cands);
    if |cands| > 1 {
      r := Some(cands[FirstMax(cands, LevelRank)]);
    } else {
      r := Some(maxDiff);
    }
  }

  /** `select_surface`: collect every chart of the song, then pick the hardest. */
  method SelectSurface(song: Song) returns (r: Option<TaggedChart>)
    ensures r == Representative(Flatten(song.difficulties))
    ensures r.None? <==> forall k :: 0 <= k < |song.difficulties| ==> |song.difficulties[k].charts| == 0
  {
    var gs := song.difficulties;
    var lst: seq<TaggedChart> := [];
    var i := 0;
    while i < |gs|
      invariant 0 <= i <= |gs|
      invariant lst == Flatten(gs[..i])
    {
      var arr := gs[i].charts;
      var j := 0;
      while j < |arr|
        invariant 0 <= j <= |arr|
        invariant lst == Flatten(gs[..i]) + Tagged(gs[i])[..j]
      {
        assert Tagged(gs[i])[..j + 1] == Tagged(gs[i])[..j] + [TaggedChart(gs[i].kind, arr[j])];
        lst := lst + [TaggedChart(gs[i].kind, arr[j])];
        j := j + 1;
      }
      assert Tagged(gs[i])[..j] == Tagged(gs[i]);
      FlattenStep(gs, i);
      i := i + 1;
    }
    assert gs[..|gs|] == gs;
    r := PickHardest(lst);
  }

  /** The two-letter code of a chart type: "standard" is SD, every other type is DX. */
  function Code(kind: string): (c: string)
    ensures c == "SD" || c == "DX"
    ensures c == "SD" <==> kind == "standard"
  {
    if kind == "standard" then "SD" else "DX"
  }

  /** The groups that have at least one chart, in mapping order. */
  function NonEmptyGroups(gs: seq<ChartGroup>): (ne: seq<ChartGroup>)
    ensures |ne| <= |gs|
    ensures forall g :: g in ne <==> g in gs && |g.charts| > 0
  {
    if |gs| == 0 then []
    else
      var last := gs[|gs| - 1];
      assert forall g :: g in gs <==> g in gs[..|gs| - 1] || g == last;
      NonEmptyGroups(gs[..|gs| - 1]) + (if |last.charts| > 0 then [last] else [])
  }

  /**
   * The codes of the chart types that have at least one chart, in mapping
   * order: the i-th code is the code of the i-th non-empty group.
   */
  function Codes(gs: seq<ChartGroup>): (r: seq<string>)
    ensures |r| == |NonEmptyGroups(gs)|
    ensures forall i :: 0 <= i < |r| ==> r[i] == Code(NonEmptyGroups(gs)[i].kind)
    ensures forall k :: 0 <= k < |r| ==> r[k] == "SD" || r[k] == "DX"
  {
    if |gs| == 0 then []
    else
      var init := gs[..|gs| - 1];
      var last := gs[|gs| - 1];
      Codes(init) + (if |last.charts| > 0 then [Code(last.kind)] else [])
  }

  /** Taking one more group appends its code when it has a chart. */
  lemma CodesStep(gs: seq<ChartGroup>, i: nat)
    requires i < |gs|
    ensures Codes(gs[..i + 1]) == Codes(gs[..i]) + (if |gs[i].charts| > 0 then [Code(gs[i].kind)] else [])
  {
    assert gs[..i + 1][..i] == gs[..i];
  }

  /** Every chart type that has a chart contributes its code, and every code comes from such a type. */
  lemma CodesListNonEmptyTypes(gs: seq<ChartGroup>)
    ensures forall k :: 0 <= k < |gs| && |gs[k].charts| > 0 ==> Code(gs[k].kind) in Codes(gs)
    ensures forall c :: c in Codes(gs) ==> exists k :: 0 <= k < |gs| && |gs[k].charts| > 0 && c == Code(gs[k].kind)
  {
    var ne, r := NonEmptyGroups(gs), Codes(gs);
    forall k | 0 <= k < |gs| && |gs[k].charts| > 0 ensures Code(gs[k].kind) in r {
      assert gs[k] in ne;
      var i :| 0 <= i < |ne| && ne[i] == gs[k];
      assert r[i] == Code(gs[k].kind);
    }
    forall c | c in r ensures exists k :: 0 <= k < |gs| && |gs[k].charts| > 0 && c == Code(gs[k].kind) {
      var i :| 0 <= i < |r| && r[i] == c;
      assert ne[i] in ne;
      var k :| 0 <= k < |gs| && gs[k] == ne[i];
    }
  }

  /**
   * Python's `sep.join(parts)`: the result starts with the first part and
   * ends with the last, and joining non-empty parts gives the empty string
   * only when there are no parts.
   */
  function Join(parts: seq<string>, sep: string): (r: string)
    ensures |parts| > 0 ==> parts[0] <= r
    ensures |parts| > 0 ==> |parts[|parts| - 1]| <= |r| && r[|r| - |parts[|parts| - 1]|..] == parts[|parts| - 1]
    ensures (forall k :: 0 <= k < |parts| ==> |parts[k]| > 0) ==> (r == "" <==> |parts| == 0)
  {
    if |parts| == 0 then ""
    else if |parts| == 1 then parts[0]
    else Join(parts[..|parts| - 1], sep) + sep + parts[|parts| - 1]
  }

  /** The chart-type codes are empty exactly when every group is empty. */
  lemma {:induction false} CodesEmpty(gs: seq<ChartGroup>)
    ensures |Codes(gs)| == 0 <==> forall k :: 0 <= k < |gs| ==> |gs[k].charts| == 0
  {
    if |gs| > 0 {
      var init := gs[..|gs| - 1];
      CodesEmpty(init);
      assert forall k :: 0 <= k < |init| ==> init[k] == gs[k];
    }
  }

  /** The chart-type signature loop: the codes of the non-empty groups joined by "/". */
  method TypeSignature(gs: seq<ChartGroup>) returns (sig: string)
    ensures sig == Join(Codes(gs), "/")
  {
    var types: seq<string> := [];
    var i := 0;
    while i < |gs|
      invariant 0 <= i <= |gs|
      invariant types == Codes(gs[..i])
    {
      CodesStep(gs, i);
      if |gs[i].charts| > 0 {
        types := types + [Code(gs[i].kind)];
      }
      i := i + 1;
    }
    assert gs[..|gs|] == gs;
    sig := Join(types, "/");
  }

  /**
   * A song shows an empty chart-type signature exactly when it has no
   * representative chart: both happen when every group is empty.
   */
  lemma SignatureEmptyIffNoChart(gs: seq<ChartGroup>)
    ensures Join(Codes(gs), "/") == "" <==> Representative(Flatten(gs)).None?
    ensures Join(Codes(gs), "/") == "" <==> forall k :: 0 <= k < |gs| ==> |gs[k].charts| == 0
  {
    CodesEmpty(gs);
  }
}
