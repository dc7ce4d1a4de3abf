// Which source and output roots a run may be given: outputs apart from
// everything, sources apart from each other but for one documented nesting.

module PathTopology {
  import opened Wrappers

  datatype Role = Upstream | TaskDir | Workspace | Output | Unknown

  type Path = seq<string>

  datatype Given = Given(role: Role, absolute: bool, path: Path)

  predicate IsSource(role: Role) {
    role.Upstream? || role.TaskDir? || role.Workspace?
  }

  /** Equal, or one inside the other. */
  predicate Overlap(a: Path, b: Path) {
    a == b || a < b || b < a
  }

  predicate Below(p: Path, root: Path) {
    root <= p
  }

  /** Some file could lie below both. */
  ghost predicate ShareAFile(a: Path, b: Path) {
    exists p: Path :: Below(p, a) && Below(p, b)
  }

  /** Roots overlap exactly when some path lies below both. */
  lemma OverlapIsSharing(a: Path, b: Path)
    ensures Overlap(a, b) <==> ShareAFile(a, b)
  {
    if Overlap(a, b) {
      var longer := if |a| < |b| then b else a;
      assert Below(longer, a) && Below(longer, b);
    }
    if ShareAFile(a, b) {
      var p: Path :| Below(p, a) && Below(p, b);
      if |a| <= |b| {
        assert a == p[..|a|] == b[..|a|];
      } else {
        assert b == p[..|b|] == a[..|b|];
      }
    }
  }

  /** Which of two nested sources is the child, and which the parent. */
  function ChildParent(left: Given, right: Given): Option<(Role, Role)> {
    if left.path == right.path then None
    else if right.path < left.path then Some((left.role, right.role))
    else if left.path < right.path then Some((right.role, left.role))
    else None
  }

  /** Two sources may only nest as the task directory inside upstream. */
  predicate SourcesAgree(left: Given, right: Given) {
    !Overlap(left.path, right.path) || ChildParent(left, right) == Some((TaskDir, Upstream))
  }

  predicate OutputApart(output: Given, other: Given) {
    (output.role == other.role && output.path == other.path) || !Overlap(output.path, other.path)
  }

  method Sort(given: seq<Given>) returns (ok: bool, sources: seq<Given>, outputs: seq<Given>)
    ensures ok <==> forall g :: g in given ==> g.absolute && !g.role.Unknown?
    ensures ok ==> forall g :: g in sources <==> g in given && IsSource(g.role)
    ensures ok ==> forall g :: g in outputs <==> g in given && g.role.Output?
    ensures ok ==> DistinctRoles(given) ==> DistinctRoles(sources)
  {
    sources, outputs := [], [];
    for i := 0 to |given|
      invariant forall g :: g in given[..i] ==> g.absolute && !g.role.Unknown?
      invariant forall g :: g in sources <==> g in given[..i] && IsSource(g.role)
      invariant forall g :: g in outputs <==> g in given[..i] && g.role.Output?
      invariant DistinctRoles(given) ==> DistinctRoles(sources)
    {
      assert given[..i + 1] == given[..i] + [given[i]];
      if !given[i].absolute || given[i].role.Unknown? {
        assert given[i] in given;
        return false, sources, outputs;
      }
      if given[i].role.Output? {
        outputs := outputs + [given[i]];
      } else {
        if DistinctRoles(given) {
          forall g | g in sources ensures g.role != given[i].role {
            var k :| 0 <= k < i && given[..i][k] == g;
            assert given[k].role != given[i].role;
          }
        }
        sources := sources + [given[i]];
      }
    }
    assert given[..|given|] == given;
    ok := true;
  }

  /** The roots come from a mapping, so no role is given twice. */
  predicate DistinctRoles(given: seq<Given>) {
    forall i, j :: 0 <= i < j < |given| ==> given[i].role != given[j].role
  }

  method CheckSources(sources: seq<Given>) returns (ok: bool)
    ensures ok <==> forall i, j :: 0 <= i < j < |sources| ==> SourcesAgree(sources[i], sources[j])
  {
    for i := 0 to |sources|
      invariant forall k, j :: 0 <= k < i && k < j < |sources| ==> SourcesAgree(sources[k], sources[j])
    {
      for j := i + 1 to |sources|
        invariant forall k :: i < k < j ==> SourcesAgree(sources[i], sources[k])
      {
        if Overlap(sources[i].path, sources[j].path)
          && ChildParent(sources[i], sources[j]) != Some((TaskDir, Upstream)) {
          assert !SourcesAgree(sources[i], sources[j]);
          return false;
        }
      }
    }
    ok := true;
  }

  method CheckOutputs(outputs: seq<Given>, sources: seq<Given>) returns (ok: bool)
    ensures ok <==>
      (forall i, j :: 0 <= i < |outputs| && 0 <= j < |sources| ==> !Overlap(outputs[i].path, sources[j].path))
      && (forall i, j :: 0 <= i < |outputs| && 0 <= j < |outputs| ==> OutputApart(outputs[i], outputs[j]))
  {
    for i := 0 to |outputs|
      invariant forall k, j :: 0 <= k < i && 0 <= j < |sources| ==> !Overlap(outputs[k].path, sources[j].path)
      invariant forall k, j :: 0 <= k < i && 0 <= j < |outputs| ==> OutputApart(outputs[k], outputs[j])
    {
      for j := 0 to |sources|
        invariant forall k :: 0 <= k < j ==> !Overlap(outputs[i].path, sources[k].path)
      {
        if Overlap(outputs[i].path, sources[j].path) {
          return false;
        }
      }
      for j := 0 to |outputs|
        invariant forall k :: 0 <= k < j ==> OutputApart(outputs[i], outputs[k])
      {
        if !(outputs[i].role == outputs[j].role && outputs[i].path == outputs[j].path)
           && Overlap(outputs[i].path, outputs[j].path)
        {
          return false;
        }
      }
    }
    ok := true;
  }

  /** What the topology promises, in terms of files: whatever lies below two
      roots lies below the task directory inside upstream. */
  ghost predicate Separated(given: seq<Given>) {
    && (forall g :: g in given ==> g.absolute && !g.role.Unknown?)
    && forall a, b, p: Path :: a in given && b in given && a.role != b.role && Below(p, a.path) && Below(p, b.path)
         ==> IsSource(a.role) && IsSource(b.role) && ((a.role.TaskDir? && b.role.Upstream? && b.path < a.path)
                                                      || (b.role.TaskDir? && a.role.Upstream? && a.path < b.path))
  }

  lemma SeparatedPairs(given: seq<Given>, a: Given, b: Given)
    requires Separated(given) && a in given && b in given && a.role != b.role
    ensures if a.role.Output? || b.role.Output? then !Overlap(a.path, b.path) else SourcesAgree(a, b)
  {
    OverlapIsSharing(a.path, b.path);
  }

  /** Accepts roots exactly when the topology holds. */
  method RequireTopology(given: seq<Given>) returns (ok: bool)
    requires DistinctRoles(given)
    ensures ok <==> Separated(given)
  {
    var known, sources, outputs := Sort(given);
    if !known {
      return false;
    }
    var sourcesOk := CheckSources(sources);
    if !sourcesOk {
      ClashingSources(given, sources);
      return false;
    }
    ok := CheckOutputs(outputs, sources);
    if ok {
    } else {
      ClashingOutput(given, sources, outputs);
    }
  }

  lemma ClashingSources(given: seq<Given>, sources: seq<Given>)
    requires DistinctRoles(sources) && forall g :: g in sources <==> g in given && IsSource(g.role)
    requires exists i, j :: 0 <= i < j < |sources| && !SourcesAgree(sources[i], sources[j])
    ensures !Separated(given)
  {
    var i, j :| 0 <= i < j < |sources| && !SourcesAgree(sources[i], sources[j]);
    assert sources[i] in sources && sources[j] in sources;
    if Separated(given) { SeparatedPairs(given, sources[i], sources[j]); }
  }

  lemma OneOutput(given: seq<Given>, a: Given, b: Given)
    requires DistinctRoles(given) && a in given && b in given && a.role == b.role
    ensures a == b
  {
    var i :| 0 <= i < |given| && given[i] == a;
    var j :| 0 <= j < |given| && given[j] == b;
  }

  lemma ClashingOutput(given: seq<Given>, sources: seq<Given>, outputs: seq<Given>)
    requires DistinctRoles(given)
    requires forall g :: g in sources <==> g in given && IsSource(g.role)
    requires forall g :: g in outputs <==> g in given && g.role.Output?
    requires (exists i, j :: 0 <= i < |outputs| && 0 <= j < |sources| && Overlap(outputs[i].path, sources[j].path))
          || (exists i, j :: 0 <= i < |outputs| && 0 <= j < |outputs| && !OutputApart(outputs[i], outputs[j]))
    ensures !Separated(given)
  {
    if i, j :| 0 <= i < |outputs| && 0 <= j < |sources| && Overlap(outputs[i].path, sources[j].path) {
      assert outputs[i] in outputs && sources[j] in sources;
      if Separated(given) { SeparatedPairs(given, outputs[i], sources[j]); }
    } else {
      var i, j :| 0 <= i < |outputs| && 0 <= j < |outputs| && !OutputApart(outputs[i], outputs[j]);
      assert outputs[i] in outputs && outputs[j] in outputs;
      OneOutput(given, outputs[i], outputs[j]);
    }
  }
}
