/** Folding artifact updates into a task's artifact list
    (A2A specification, section 4.1.7), and what the folded list means. */
module Artifacts {
  import opened Types

  type Update = TaskArtifactUpdateEvent

  function IdOf(u: Update): string {
    u.artifact.artifactId
  }

  /** The position of the first artifact with this id, or the length of the list. */
  function Find(artifacts: seq<Artifact>, id: string): (i: nat)
    ensures i <= |artifacts|
    ensures i < |artifacts| ==> artifacts[i].artifactId == id
    ensures forall j | 0 <= j < i :: artifacts[j].artifactId != id
  {
    if artifacts == [] then 0
    else if artifacts[0].artifactId == id then 0
    else 1 + Find(artifacts[1..], id)
  }

  function Without(artifacts: seq<Artifact>, id: string): seq<Artifact> {
    if artifacts == [] then []
    else
      var last := artifacts[|artifacts| - 1];
      Without(artifacts[..|artifacts| - 1], id) + (if last.artifactId == id then [] else [last])
  }

  function Extended(a: Artifact, parts: seq<Part>): Artifact {
    a.(parts := a.parts + parts)
  }

  function Merge(artifacts: seq<Artifact>, u: Update): seq<Artifact> {
    if u.append then
      var i := Find(artifacts, IdOf(u));
      if i < |artifacts| then artifacts[i := Extended(artifacts[i], u.artifact.parts)]
      else artifacts + [u.artifact]
    else
      Without(artifacts, IdOf(u)) + [u.artifact]
  }

  /** The update as the server performs it: extend in place, or drop every older
      version and push. */
  method MergeArtifact(task: Task, u: Update) returns (merged: Task)
    ensures merged == task.(artifacts := Merge(task.artifacts, u))
  {
    var artifacts := task.artifacts;
    if u.append {
      var i := 0;
      while i < |artifacts| && artifacts[i].artifactId != IdOf(u)
        invariant 0 <= i <= |artifacts|
        invariant forall j | 0 <= j < i :: artifacts[j].artifactId != IdOf(u)
      {
        i := i + 1;
      }
      if i < |artifacts| {
        artifacts := artifacts[i := Extended(artifacts[i], u.artifact.parts)];
        return task.(artifacts := artifacts);
      }
    } else {
      var kept: seq<Artifact> := [];
      for i := 0 to |artifacts|
        invariant kept == Without(artifacts[..i], IdOf(u))
      {
        assert artifacts[..i + 1][..i] == artifacts[..i];
        if artifacts[i].artifactId != IdOf(u) {
          kept := kept + [artifacts[i]];
        }
      }
      assert artifacts[..|artifacts|] == artifacts;
      artifacts := kept;
    }
    merged := task.(artifacts := artifacts + [u.artifact]);
  }

  function MergeAll(us: seq<Update>): seq<Artifact> {
    if us == [] then [] else Merge(MergeAll(us[..|us| - 1]), us[|us| - 1])
  }

  /** The same from a list that is already there. */
  function MergedInto(artifacts: seq<Artifact>, us: seq<Update>): seq<Artifact> {
    if us == [] then artifacts else Merge(MergedInto(artifacts, us[..|us| - 1]), us[|us| - 1])
  }

  // ---- What the list means, read off the whole update sequence ----

  /** Update `i` opens the surviving version of its artifact: it replaces (or is
      the first to mention) the artifact, and no later update replaces it again. */
  predicate Starts(us: seq<Update>, i: nat)
    requires i < |us|
  {
    && (us[i].append ==> forall j | 0 <= j < i :: IdOf(us[j]) != IdOf(us[i]))
    && (forall k | i < k < |us| && IdOf(us[k]) == IdOf(us[i]) :: us[k].append)
  }

  /** The parts that the updates with this id in `us[from..to]` carry, in order. */
  function PartsBetween(us: seq<Update>, from: nat, to: nat, id: string): seq<Part>
    requires from <= to <= |us|
  {
    if from == to then []
    else
      PartsBetween(us, from, to - 1, id) + (if IdOf(us[to - 1]) == id then us[to - 1].artifact.parts else [])
  }

  /** The artifact that the surviving version opened by update `i` amounts to. */
  function Gathered(us: seq<Update>, i: nat): Artifact
    requires i < |us|
  {
    us[i].artifact.(parts := PartsBetween(us, i, |us|, IdOf(us[i])))
  }

  function DeclaredUpTo(us: seq<Update>, n: nat): seq<Artifact>
    requires n <= |us|
  {
    if n == 0 then []
    else DeclaredUpTo(us, n - 1) + (if Starts(us, n - 1) then [Gathered(us, n - 1)] else [])
  }

  /** One artifact per surviving version, in the order the versions were opened. */
  function Declared(us: seq<Update>): seq<Artifact> {
    DeclaredUpTo(us, |us|)
  }

  predicate DistinctIds(artifacts: seq<Artifact>) {
    forall i, j | 0 <= i < j < |artifacts| :: artifacts[i].artifactId != artifacts[j].artifactId
  }

  lemma {:induction false} DeclaredSource(us: seq<Update>, n: nat, a: Artifact) returns (i: nat)
    requires n <= |us| && a in DeclaredUpTo(us, n)
    ensures i < n && Starts(us, i) && a == Gathered(us, i)
  {
    if Starts(us, n - 1) && a == Gathered(us, n - 1) {
      i := n - 1;
    } else {
      i := DeclaredSource(us, n - 1, a);
    }
  }

  lemma {:induction false} DeclaredHas(us: seq<Update>, n: nat, i: nat)
    requires i < n <= |us| && Starts(us, i)
    ensures Gathered(us, i) in DeclaredUpTo(us, n)
  {
    if i < n - 1 {
      DeclaredHas(us, n - 1, i);
    }
  }

  lemma {:induction false} DeclaredDistinct(us: seq<Update>, n: nat)
    requires n <= |us|
    ensures DistinctIds(DeclaredUpTo(us, n))
  {
    if n > 0 {
      DeclaredDistinct(us, n - 1);
      var shorter := DeclaredUpTo(us, n - 1);
      if Starts(us, n - 1) {
        forall k | 0 <= k < |shorter| ensures shorter[k].artifactId != IdOf(us[n - 1]) {
          var i := DeclaredSource(us, n - 1, shorter[k]);
        }
      }
    }
  }

  // ---- One more update, seen from the declarative side ----

  lemma {:induction false} PartsBetweenSnoc(us: seq<Update>, u: Update, from: nat, to: nat, id: string)
    requires from <= to <= |us|
    ensures PartsBetween(us + [u], from, to, id) == PartsBetween(us, from, to, id)
  {
    if from < to {
      PartsBetweenSnoc(us, u, from, to - 1, id);
    }
  }

  lemma GatheredSnoc(us: seq<Update>, u: Update, i: nat)
    requires i < |us|
    ensures Gathered(us + [u], i)
         == if IdOf(us[i]) == IdOf(u) then Extended(Gathered(us, i), u.artifact.parts) else Gathered(us, i)
  {
    PartsBetweenSnoc(us, u, i, |us|, IdOf(us[i]));
  }

  lemma StartsSnoc(us: seq<Update>, u: Update, i: nat)
    requires i < |us|
    ensures Starts(us + [u], i) <==> Starts(us, i) && (IdOf(us[i]) == IdOf(u) ==> u.append)
  {
    var longer := us + [u];
    assert longer[|us|] == u;
    assert forall k | 0 <= k < |us| :: longer[k] == us[k];
  }

  predicate Mentioned(us: seq<Update>, id: string) {
    exists i | 0 <= i < |us| :: IdOf(us[i]) == id
  }

  /** Some surviving version exists for every id that was ever mentioned. */
  lemma {:induction false} MentionedStarts(us: seq<Update>, id: string) returns (i: nat)
    requires Mentioned(us, id)
    ensures i < |us| && Starts(us, i) && IdOf(us[i]) == id
  {
    var shorter, u := us[..|us| - 1], us[|us| - 1];
    assert us == shorter + [u];
    if IdOf(u) == id && (!u.append || !Mentioned(shorter, id)) {
      i := |us| - 1;
    } else {
      i := MentionedStarts(shorter, id);
      StartsSnoc(shorter, u, i);
    }
  }

  lemma WithoutSnoc(artifacts: seq<Artifact>, a: Artifact, id: string)
    ensures Without(artifacts + [a], id) == Without(artifacts, id) + (if a.artifactId == id then [] else [a])
  {
    assert (artifacts + [a])[..|artifacts|] == artifacts;
  }

  lemma {:induction false} DeclaredReplaced(us: seq<Update>, u: Update, n: nat)
    requires n <= |us| && !u.append
    ensures DeclaredUpTo(us + [u], n) == Without(DeclaredUpTo(us, n), IdOf(u))
  {
    if n > 0 {
      DeclaredReplaced(us, u, n - 1);
      ReplacedOneMore(us, u, n);
    }
  }

  lemma ReplacedOneMore(us: seq<Update>, u: Update, n: nat)
    requires 0 < n <= |us| && !u.append
    requires DeclaredUpTo(us + [u], n - 1) == Without(DeclaredUpTo(us, n - 1), IdOf(u))
    ensures DeclaredUpTo(us + [u], n) == Without(DeclaredUpTo(us, n), IdOf(u))
  {
    var d := DeclaredUpTo(us, n - 1);
    StartsSnoc(us, u, n - 1);
    if Starts(us, n - 1) {
      GatheredSnoc(us, u, n - 1);
      WithoutSnoc(d, Gathered(us, n - 1), IdOf(u));
      assert DeclaredUpTo(us, n) == d + [Gathered(us, n - 1)];
    } else {
      assert DeclaredUpTo(us, n) == d;
    }
    assert (us + [u])[n - 1] == us[n - 1];
  }

  function ExtendAll(artifacts: seq<Artifact>, u: Update): seq<Artifact> {
    seq(|artifacts|, i requires 0 <= i < |artifacts| =>
      if artifacts[i].artifactId == IdOf(u) then Extended(artifacts[i], u.artifact.parts) else artifacts[i])
  }

  lemma ExtendAllSnoc(artifacts: seq<Artifact>, a: Artifact, u: Update)
    ensures ExtendAll(artifacts + [a], u)
         == ExtendAll(artifacts, u) + [if a.artifactId == IdOf(u) then Extended(a, u.artifact.parts) else a]
  {
  }

  lemma {:induction false} DeclaredExtended(us: seq<Update>, u: Update, n: nat)
    requires n <= |us| && u.append
    ensures DeclaredUpTo(us + [u], n) == ExtendAll(DeclaredUpTo(us, n), u)
  {
    if n > 0 {
      DeclaredExtended(us, u, n - 1);
      ExtendedOneMore(us, u, n);
    }
  }

  lemma ExtendedOneMore(us: seq<Update>, u: Update, n: nat)
    requires 0 < n <= |us| && u.append
    requires DeclaredUpTo(us + [u], n - 1) == ExtendAll(DeclaredUpTo(us, n - 1), u)
    ensures DeclaredUpTo(us + [u], n) == ExtendAll(DeclaredUpTo(us, n), u)
  {
    StartsSnoc(us, u, n - 1);
    GatheredSnoc(us, u, n - 1);
    ExtendAllSnoc(DeclaredUpTo(us, n - 1), Gathered(us, n - 1), u);
    assert (us + [u])[n - 1] == us[n - 1];
  }

  lemma DeclaredSnoc(us: seq<Update>, u: Update)
    ensures Declared(us + [u]) == Merge(Declared(us), u)
  {
    var longer := us + [u];
    var before := Declared(us);
    assert longer[|us|] == u;
    assert PartsBetween(longer, |us|, |us| + 1, IdOf(u)) == u.artifact.parts;
    assert Gathered(longer, |us|) == u.artifact;
    if !u.append {
      DeclaredReplaced(us, u, |us|);
    } else {
      DeclaredExtended(us, u, |us|);
      var i := Find(before, IdOf(u));
      if i < |before| {
        DeclaredDistinct(us, |us|);
        var k := DeclaredSource(us, |us|, before[i]);
        assert longer[k] == us[k] && IdOf(longer[k]) == IdOf(u);
        assert !Starts(longer, |us|);
        assert ExtendAll(before, u) == Merge(before, u);
      } else {
        if Mentioned(us, IdOf(u)) {
          var k := MentionedStarts(us, IdOf(u));
          DeclaredHas(us, |us|, k);
        }
        assert Starts(longer, |us|) by {
          forall j | 0 <= j < |us| ensures IdOf(longer[j]) != IdOf(u) {
            assert longer[j] == us[j];
          }
        }
        assert ExtendAll(before, u) == before;
      }
    }
  }

  /** The folded artifact list is exactly the declared one. */
  lemma {:induction false} MergeAllIsDeclared(us: seq<Update>)
    ensures MergeAll(us) == Declared(us)
  {
    if us != [] {
      var shorter, u := us[..|us| - 1], us[|us| - 1];
      MergeAllIsDeclared(shorter);
      DeclaredSnoc(shorter, u);
      assert us == shorter + [u];
    }
  }

  lemma {:induction false} PartsBetweenNonEmpty(us: seq<Update>, from: nat, to: nat)
    requires from < to <= |us|
    requires us[from].artifact.parts != []
    ensures PartsBetween(us, from, to, IdOf(us[from])) != []
  {
    if from < to - 1 {
      PartsBetweenNonEmpty(us, from, to - 1);
    }
  }

  /** Ids in the folded list are pairwise distinct, exactly the mentioned ids
      occur, and no artifact is left without parts. */
  lemma MergeAllWellFormed(us: seq<Update>)
    requires forall u | u in us :: u.artifact.parts != []
    ensures DistinctIds(MergeAll(us))
    ensures forall id :: Mentioned(us, id) <==> exists a | a in MergeAll(us) :: a.artifactId == id
    ensures forall a | a in MergeAll(us) :: a.parts != []
  {
    MergeAllIsDeclared(us);
    DeclaredDistinct(us, |us|);
    forall a | a in MergeAll(us) ensures a.parts != [] && Mentioned(us, a.artifactId) {
      var i := DeclaredSource(us, |us|, a);
      PartsBetweenNonEmpty(us, i, |us|);
    }
    forall id | Mentioned(us, id) ensures exists a | a in MergeAll(us) :: a.artifactId == id {
      var i := MentionedStarts(us, id);
      DeclaredHas(us, |us|, i);
    }
  }
}
