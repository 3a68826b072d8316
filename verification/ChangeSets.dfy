/** Change sets as values: normalising what a runner returned, merging a delta into the recorded set,
    and applying a set to a workspace tree.

    A tree is a flat map from cleaned paths to contents, and the patch tool is an arbitrary partial
    function from a patch and one file's contents (None: no such file) to new contents. */
module ChangeSets {
  import opened Options
  import opened Text
  import opened Paths
  import opened Positions

  datatype FileChange = FileChange(path: string, contents: Option<string>, patch: string, delete: bool)

  datatype Mode = Delete | Patch | Write | Empty

  function ModeOf(f: FileChange): Mode {
    if f.delete then Delete
    else if f.patch != "" then Patch
    else if f.contents.Some? then Write
    else Empty
  }

  function PathsOf(files: seq<FileChange>): seq<string> {
    seq(|files|, i requires 0 <= i < |files| => files[i].path)
  }

  predicate Distinct(files: seq<FileChange>) {
    forall i, j :: 0 <= i < j < |files| ==> files[i].path != files[j].path
  }

  /** The last entry for a path, which is the one that counts. */
  function LastFor(files: seq<FileChange>, p: string): (r: Option<FileChange>)
    ensures r.Some? ==> r.value in files && r.value.path == p
    ensures r.Some? <==> p in PathsOf(files)
  {
    if files == [] then None
    else
      var last := files[|files| - 1];
      assert PathsOf(files) == PathsOf(files[..|files| - 1]) + [last.path];
      if last.path == p then Some(last) else LastFor(files[..|files| - 1], p)
  }

  // ---- normalizeChangeSet ----

  datatype Dropped = NoPath | NoChange(path: string) | Duplicate(path: string)

  datatype Sieved = Sieved(kept: seq<FileChange>, dropped: seq<Dropped>)

  function SieveOne(r: Sieved, entry: FileChange): Sieved {
    var f := entry.(path := Trim(entry.path));
    if f.path == "" then r.(dropped := r.dropped + [NoPath])
    else if ModeOf(f) == Empty then r.(dropped := r.dropped + [NoChange(f.path)])
    else if f.path in PathsOf(r.kept) then r.(dropped := r.dropped + [Duplicate(f.path)])
    else r.(kept := r.kept + [f])
  }

  function Normalize(files: seq<FileChange>): Sieved {
    if files == [] then Sieved([], []) else SieveOne(Normalize(files[..|files| - 1]), files[|files| - 1])
  }

  predicate Usable(f: FileChange) {
    Trim(f.path) != "" && ModeOf(f) != Empty
  }

  /** The first usable entry whose trimmed path is `p`, with its path trimmed. */
  function FirstUsable(files: seq<FileChange>, p: string): Option<FileChange> {
    if files == [] then None
    else if Usable(files[0]) && Trim(files[0].path) == p then Some(files[0].(path := p))
    else FirstUsable(files[1..], p)
  }

  predicate Normal(files: seq<FileChange>) {
    && Distinct(files)
    && (forall i :: 0 <= i < |files| ==>
          files[i].path != "" && Trimmed(files[i].path) && ModeOf(files[i]) != Empty)
  }

  lemma {:induction false} FirstUsableSnoc(files: seq<FileChange>, p: string)
    requires files != []
    ensures var n := |files| - 1;
            FirstUsable(files, p) ==
            if FirstUsable(files[..n], p).Some? then FirstUsable(files[..n], p)
            else FirstUsable([files[n]], p)
  {
    if |files| > 1 {
      FirstUsableSnoc(files[1..], p);
      assert files[1..][..|files| - 2] == files[..|files| - 1][1..];
    } else {
      assert files == [files[0]];
    }
  }

  lemma {:induction false} SieveOneSpec(r: Sieved, entry: FileChange)
    requires Normal(r.kept)
    ensures var r' := SieveOne(r, entry);
            && Normal(r'.kept) && |r'.kept| + |r'.dropped| == |r.kept| + |r.dropped| + 1
            && (forall p :: LastFor(r'.kept, p) ==
                            if LastFor(r.kept, p).Some? then LastFor(r.kept, p) else FirstUsable([entry], p))
  {
    TrimSpec(entry.path);
    hide TrimLeft;
    hide TrimRight;
    hide LastFor;
    var f := entry.(path := Trim(entry.path));
    KeptSnoc(r.kept, f);
    forall p ensures FirstUsable([entry], p) == if Usable(entry) && f.path == p then Some(f) else None {
      assert [entry][1..] == [];
    }
  }

  lemma {:induction false} KeptSnoc(kept: seq<FileChange>, f: FileChange)
    requires Distinct(kept)
    ensures f.path !in PathsOf(kept) ==> Distinct(kept + [f])
    ensures forall p :: LastFor(kept + [f], p) == if f.path == p then Some(f) else LastFor(kept, p)
    ensures forall p :: LastFor(kept, p).Some? <==> p in PathsOf(kept)
  {
    assert (kept + [f])[..|kept|] == kept;
    if f.path !in PathsOf(kept) {
      forall i | 0 <= i < |kept| ensures kept[i].path != f.path {
        assert PathsOf(kept)[i] == kept[i].path;
      }
    }
  }

  /** What is kept is normal, accounts with what is dropped for every entry, and holds for each path
      exactly the first usable entry the runner gave for it. */
  lemma {:induction false} NormalizeSpec(files: seq<FileChange>)
    ensures Normal(Normalize(files).kept)
    ensures |Normalize(files).kept| + |Normalize(files).dropped| == |files|
    ensures forall p :: LastFor(Normalize(files).kept, p) == FirstUsable(files, p)
  {
    hide SieveOne;
    hide LastFor;
    hide Normal;
    if files == [] {
      NothingKept();
    } else {
      var n := |files| - 1;
      NormalizeSpec(files[..n]);
      SieveOneSpec(Normalize(files[..n]), files[n]);
      forall p ensures LastFor(Normalize(files).kept, p) == FirstUsable(files, p) {
        FirstUsableSnoc(files, p);
        assert LastFor(Normalize(files[..n]).kept, p) == FirstUsable(files[..n], p);
      }
    }
  }

  /** Normalised entries whose paths are accepted are written neither in the metadata nor below the workflow directory:
      their paths are trimmed, so the verdict is on the path that is written. */
  lemma {:induction false} NormalizedPlace(files: seq<FileChange>, i: nat)
    requires i < |Normalize(files).kept| && PathRejection(Normalize(files).kept[i].path) == Accepted
    ensures var place := CleanSegments(Normalize(files).kept[i].path);
            place != [] && !InGitMetadata(place) && !BelowWorkflows(place)
  {
    hide PathRejection;
    hide CleanSegments;
    hide Normalize;
    var path := Normalize(files).kept[i].path;
    NormalizeSpec(files);
    TrimSpec(path);
    AcceptedPlace(path);
    WrittenBelowWorkflowsIff(path);
  }

  // ---- the sieve, by the fields of the entries ----

  /** The entry asks for a change. */
  predicate Asks(f: FileChange) {
    f.delete || f.patch != "" || f.contents.Some?
  }

  /** The entry at this position is the first for its path that asks for a change. */
  predicate Leads(files: seq<FileChange>, i: nat)
    requires i < |files|
  {
    Trim(files[i].path) != "" && Asks(files[i])
    && forall j :: 0 <= j < i && Asks(files[j]) ==> Trim(files[j].path) != Trim(files[i].path)
  }

  /** Why the entry at this position is dropped. */
  predicate DroppedFor(d: Dropped, files: seq<FileChange>, i: nat)
    requires i < |files|
  {
    var p := Trim(files[i].path);
    if p == "" then d == NoPath else if !Asks(files[i]) then d == NoChange(p) else d == Duplicate(p)
  }

  lemma {:induction false} LeaderOf(files: seq<FileChange>, j: nat) returns (i: nat)
    requires j < |files| && Asks(files[j]) && Trim(files[j].path) != ""
    ensures i <= j && Leads(files, i) && Trim(files[i].path) == Trim(files[j].path)
    decreases j
  {
    hide Asks;
    hide Trim;
    if Leads(files, j) {
      i := j;
    } else {
      var k :| 0 <= k < j && Asks(files[k]) && Trim(files[k].path) == Trim(files[j].path);
      i := LeaderOf(files, k);
    }
  }

  function TrimmedEntry(f: FileChange): FileChange {
    f.(path := Trim(f.path))
  }

  /** The positions are those of the entries that lead, or of those that do not, in order. */
  ghost predicate Picked(at: seq<nat>, files: seq<FileChange>, leading: bool) {
    Increasing(at) && forall i: nat :: i in at <==> i < |files| && Leads(files, i) == leading
  }

  predicate KeptFrom(kept: seq<FileChange>, files: seq<FileChange>, at: seq<nat>) {
    |kept| == |at| && forall k :: 0 <= k < |at| ==> at[k] < |files| && kept[k] == TrimmedEntry(files[at[k]])
  }

  predicate DroppedFrom(dropped: seq<Dropped>, files: seq<FileChange>, at: seq<nat>) {
    |dropped| == |at| && forall k :: 0 <= k < |at| ==> at[k] < |files| && DroppedFor(dropped[k], files, at[k])
  }

  lemma {:induction false} LeadsFront(files: seq<FileChange>, n: nat, i: nat)
    requires i < n <= |files|
    ensures Leads(files[..n], i) <==> Leads(files, i)
  {
    hide Asks;
    hide Trim;
  }

  lemma {:induction false} PickedSnoc(at: seq<nat>, files: seq<FileChange>, leading: bool)
    requires files != [] && Picked(at, files[..|files| - 1], leading)
    ensures var n := |files| - 1; Picked(if Leads(files, n) == leading then at + [n] else at, files, leading)
  {
    var n := |files| - 1;
    forall i: nat | i < n ensures Leads(files[..n], i) <==> Leads(files, i) {
      LeadsFront(files, n, i);
    }
    hide Leads;
    IncreasingSnoc(at, n);
    assert forall i: nat :: i in at + [n] <==> i in at || i == n;
  }

  lemma {:induction false} KeptPath(files: seq<FileChange>, at: seq<nat>, kept: seq<FileChange>, p: string)
    requires KeptFrom(kept, files, at) && Picked(at, files, true) && p != ""
    ensures p in PathsOf(kept) <==> exists j :: 0 <= j < |files| && Asks(files[j]) && Trim(files[j].path) == p
  {
    hide Asks;
    hide Trim;
    if p in PathsOf(kept) {
      var k :| 0 <= k < |kept| && PathsOf(kept)[k] == p;
      assert at[k] in at && Trim(files[at[k]].path) == p;
    }
    if j :| 0 <= j < |files| && Asks(files[j]) && Trim(files[j].path) == p {
      var i := LeaderOf(files, j);
      assert i in at;
      var k :| 0 <= k < |at| && at[k] == i;
      assert PathsOf(kept)[k] == p;
    }
  }

  lemma {:induction false} SieveLeads(files: seq<FileChange>, at: seq<nat>, r: Sieved)
    requires files != [] && KeptFrom(r.kept, files[..|files| - 1], at) && Picked(at, files[..|files| - 1], true)
    ensures var n, r' := |files| - 1, SieveOne(r, files[|files| - 1]);
            if Leads(files, n) then r' == Sieved(r.kept + [TrimmedEntry(files[n])], r.dropped)
            else r'.kept == r.kept && |r'.dropped| == |r.dropped| + 1 && r.dropped <= r'.dropped
                 && DroppedFor(r'.dropped[|r.dropped|], files, n)
  {
    var n := |files| - 1;
    var p := Trim(files[n].path);
    if p != "" {
      KeptPath(files[..n], at, r.kept, p);
      assert (exists j :: 0 <= j < n && Asks(files[..n][j]) && Trim(files[..n][j].path) == p)
             <==> exists j :: 0 <= j < n && Asks(files[j]) && Trim(files[j].path) == p;
    }
    hide Trim;
    hide PathsOf;
  }

  /** Normalising keeps, in order and with their paths trimmed, exactly the entries that ask for a change and are the
      first such for their non-blank path; it drops exactly the others, in order and for the right reason. */
  lemma {:induction false} NormalizeKeepsFirst(files: seq<FileChange>) returns (kept: seq<nat>, dropped: seq<nat>)
    ensures Picked(kept, files, true) && KeptFrom(Normalize(files).kept, files, kept)
    ensures Picked(dropped, files, false) && DroppedFrom(Normalize(files).dropped, files, dropped)
  {
    hide Picked;
    hide SieveOne;
    hide Leads;
    hide DroppedFor;
    hide TrimmedEntry;
    kept, dropped := [], [];
    if files == [] {
      NothingPicked();
    } else {
      var n := |files| - 1;
      kept, dropped := NormalizeKeepsFirst(files[..n]);
      SieveLeads(files, kept, Normalize(files[..n]));
      PickedSnoc(kept, files, true);
      PickedSnoc(dropped, files, false);
      DroppedLonger(Normalize(files[..n]).dropped, files, dropped);
      if Leads(files, n) {
        kept := kept + [n];
      } else {
        dropped := dropped + [n];
      }
    }
  }

  lemma {:induction false} NothingPicked()
    ensures Picked([], [], true) && Picked([], [], false)
  {}

  lemma {:induction false} DroppedLonger(dropped: seq<Dropped>, files: seq<FileChange>, at: seq<nat>)
    requires files != [] && DroppedFrom(dropped, files[..|files| - 1], at)
    ensures DroppedFrom(dropped, files, at)
  {}

  lemma {:induction false} NothingKept()
    ensures Normal([]) && forall p :: LastFor([], p) == None
  {}

  lemma {:induction false} SieveKeeps(r: Sieved, f: FileChange)
    requires f.path != "" && Trimmed(f.path) && ModeOf(f) != Empty && f.path !in PathsOf(r.kept)
    ensures SieveOne(r, f) == r.(kept := r.kept + [f])
  {
    TrimSpec(f.path);
    assert f.(path := Trim(f.path)) == f;
  }

  lemma {:induction false} NormalFront(files: seq<FileChange>)
    requires Normal(files) && files != []
    ensures var n := |files| - 1; Normal(files[..n]) && files[n].path !in PathsOf(files[..n])
  {
    hide Trimmed;
    hide ModeOf;
    var n := |files| - 1;
    forall k | 0 <= k < n ensures PathsOf(files[..n])[k] != files[n].path {
      assert files[k].path != files[n].path;
    }
  }

  /** Normalising again changes nothing. */
  lemma {:induction false} NormalizeFixed(files: seq<FileChange>)
    requires Normal(files)
    ensures Normalize(files) == Sieved(files, [])
  {
    if files == [] {
    } else {
      var n := |files| - 1;
      assert files[n].path != "" && Trimmed(files[n].path) && ModeOf(files[n]) != Empty;
      hide SieveOne;
      hide Normal;
      hide PathsOf;
      hide Trimmed;
      hide ModeOf;
      NormalFront(files);
      NormalizeFixed(files[..n]);
      SieveKeeps(Sieved(files[..n], []), files[n]);
      assert files[..n] + [files[n]] == files;
    }
  }

  method NormalizeChangeSet(files: seq<FileChange>) returns (kept: seq<FileChange>, dropped: seq<Dropped>)
    ensures Sieved(kept, dropped) == Normalize(files)
  {
    var seen: set<string> := {};
    kept, dropped := [], [];
    for i := 0 to |files|
      invariant Sieved(kept, dropped) == Normalize(files[..i])
      invariant forall p :: p in seen <==> p in PathsOf(kept)
    {
      assert files[..i + 1][..i] == files[..i];
      var f := files[i].(path := Trim(files[i].path));
      if f.path == "" {
        dropped := dropped + [NoPath];
      } else if ModeOf(f) == Empty {
        dropped := dropped + [NoChange(f.path)];
      } else if f.path in seen {
        dropped := dropped + [Duplicate(f.path)];
      } else {
        seen := seen + {f.path};
        assert PathsOf(kept + [f]) == PathsOf(kept) + [f.path];
        kept := kept + [f];
      }
    }
    assert files[..|files|] == files;
  }

  // ---- MergeChangeSet ----

  /** The paths of `ps` that are not in `seen`, each once, in order of first occurrence. */
  function Fresh(seen: seq<string>, ps: seq<string>): seq<string> {
    if ps == [] then []
    else
      var order := Fresh(seen, ps[..|ps| - 1]);
      var p := ps[|ps| - 1];
      if p in seen || p in order then order else order + [p]
  }

  lemma {:induction false} FreshSpec(seen: seq<string>, ps: seq<string>)
    ensures forall p :: p in Fresh(seen, ps) <==> p in ps && p !in seen
  {
    if ps == [] {
    } else {
      FreshSpec(seen, ps[..|ps| - 1]);
      assert ps == ps[..|ps| - 1] + [ps[|ps| - 1]];
    }
  }

  function Order(base: seq<FileChange>, delta: seq<FileChange>): seq<string> {
    PathsOf(base) + Fresh(PathsOf(base), PathsOf(delta))
  }

  lemma {:induction false} OrderPaths(base: seq<FileChange>, delta: seq<FileChange>)
    ensures forall p :: p in Order(base, delta) <==> p in PathsOf(base + delta)
    ensures forall p :: LastFor(base + delta, p) ==
                        (if LastFor(delta, p).Some? then LastFor(delta, p) else LastFor(base, p))
  {
    FreshSpec(PathsOf(base), PathsOf(delta));
    assert PathsOf(base + delta) == PathsOf(base) + PathsOf(delta);
    forall p {
      LastForAppend(base, delta, p);
    }
  }

  lemma {:induction false} LastForAppend(base: seq<FileChange>, delta: seq<FileChange>, p: string)
    ensures LastFor(base + delta, p) ==
            (if LastFor(delta, p).Some? then LastFor(delta, p) else LastFor(base, p))
  {
    if delta == [] {
      assert base + delta == base;
    } else {
      assert (base + delta)[..|base + delta| - 1] == base + delta[..|delta| - 1];
      LastForAppend(base, delta[..|delta| - 1], p);
    }
  }

  /** The merged files: base order first, then the delta's new paths, each with the last entry for it. */
  function Merge(base: seq<FileChange>, delta: seq<FileChange>): seq<FileChange> {
    OrderPaths(base, delta);
    seq(|Order(base, delta)|,
        i requires 0 <= i < |Order(base, delta)| =>
          assert Order(base, delta)[i] in Order(base, delta);
          LastFor(base + delta, Order(base, delta)[i]).value)
  }

  lemma {:induction false} MergePaths(base: seq<FileChange>, delta: seq<FileChange>)
    ensures PathsOf(Merge(base, delta)) == Order(base, delta)
  {
    OrderPaths(base, delta);
    forall i | 0 <= i < |Order(base, delta)|
      ensures Merge(base, delta)[i].path == Order(base, delta)[i]
    {
      assert Order(base, delta)[i] in Order(base, delta);
    }
  }

  lemma {:induction false} LastForUniform(files: seq<FileChange>, p: string, f: FileChange)
    requires p in PathsOf(files)
    requires forall i :: 0 <= i < |files| && files[i].path == p ==> files[i] == f
    ensures LastFor(files, p) == Some(f)
  {
    var n := |files| - 1;
    if files[n].path == p {
    } else {
      assert PathsOf(files) == PathsOf(files[..n]) + [files[n].path];
      LastForUniform(files[..n], p, f);
    }
  }

  /** Delta wins: for every path, the merged set holds the delta's last entry, or else the base's. */
  lemma {:induction false} MergeEntry(base: seq<FileChange>, delta: seq<FileChange>, p: string)
    ensures LastFor(Merge(base, delta), p) ==
            (if LastFor(delta, p).Some? then LastFor(delta, p) else LastFor(base, p))
  {
    var merged := Merge(base, delta);
    OrderPaths(base, delta);
    MergePaths(base, delta);
    if p in PathsOf(merged) {
      forall i | 0 <= i < |merged| && merged[i].path == p
        ensures merged[i] == LastFor(base + delta, p).value
      {
        assert PathsOf(merged)[i] == merged[i].path;
      }
      LastForUniform(merged, p, LastFor(base + delta, p).value);
    }
  }

  lemma {:induction false} FreshDistinct(seen: seq<string>, ps: seq<string>)
    ensures forall i, j :: 0 <= i < j < |Fresh(seen, ps)| ==> Fresh(seen, ps)[i] != Fresh(seen, ps)[j]
  {
    if ps == [] {
    } else {
      FreshDistinct(seen, ps[..|ps| - 1]);
    }
  }

  /** Merging into a duplicate-free set keeps it duplicate-free; the base's paths stay a prefix, and
      the path set is the union. */
  lemma {:induction false} MergeShape(base: seq<FileChange>, delta: seq<FileChange>)
    ensures PathsOf(base) <= PathsOf(Merge(base, delta))
    ensures forall p :: p in PathsOf(Merge(base, delta)) <==> p in PathsOf(base) || p in PathsOf(delta)
    ensures Distinct(base) ==> Distinct(Merge(base, delta))
  {
    MergePaths(base, delta);
    FreshSpec(PathsOf(base), PathsOf(delta));
    FreshDistinct(PathsOf(base), PathsOf(delta));
    var merged, news := Merge(base, delta), Fresh(PathsOf(base), PathsOf(delta));
    if Distinct(base) {
      forall i, j | 0 <= i < j < |merged| ensures merged[i].path != merged[j].path {
        assert merged[i].path == Order(base, delta)[i] && merged[j].path == Order(base, delta)[j];
        if |base| <= j {
          assert news[j - |base|] in news;
          if i < |base| {
            assert PathsOf(base)[i] in PathsOf(base);
          }
        } else {
          assert base[i].path != base[j].path;
        }
      }
    }
  }

  lemma {:induction false} FreshAppend(seen: seq<string>, xs: seq<string>, ys: seq<string>)
    ensures Fresh(seen, xs + ys) == Fresh(seen, xs) + Fresh(seen + Fresh(seen, xs), ys)
  {
    if ys == [] {
      assert xs + ys == xs;
    } else {
      assert (xs + ys)[..|xs + ys| - 1] == xs + ys[..|ys| - 1];
      FreshAppend(seen, xs, ys[..|ys| - 1]);
    }
  }

  lemma {:induction false} FreshFresh(seen: seq<string>, inner: seq<string>, ps: seq<string>)
    requires forall p :: p in inner ==> p in seen
    ensures Fresh(seen, Fresh(inner, ps)) == Fresh(seen, ps)
  {
    if ps == [] {
    } else {
      var front, p := ps[..|ps| - 1], ps[|ps| - 1];
      FreshFresh(seen, inner, front);
      FreshSpec(inner, front);
      FreshSpec(seen, front);
      var order := Fresh(inner, front);
      if p !in inner && p !in order {
        assert (order + [p])[..|order|] == order;
      }
    }
  }

  lemma {:induction false} MergedAt(base: seq<FileChange>, delta: seq<FileChange>, i: nat)
    requires i < |Merge(base, delta)|
    ensures i < |Order(base, delta)|
    ensures var p := Order(base, delta)[i];
            Some(Merge(base, delta)[i]) ==
            (if LastFor(delta, p).Some? then LastFor(delta, p) else LastFor(base, p))
  {
    OrderPaths(base, delta);
    assert Order(base, delta)[i] in Order(base, delta);
  }

  lemma {:induction false} FreshAssociative(pa: seq<string>, pb: seq<string>, pc: seq<string>)
    ensures Fresh(pa, pb) + Fresh(pa + Fresh(pa, pb), pc) == Fresh(pa, pb + Fresh(pb, pc))
  {
    FreshAppend(pa, pb, Fresh(pb, pc));
    FreshSpec(pa, pb);
    FreshFresh(pa + Fresh(pa, pb), pb, pc);
  }

  lemma {:induction false} OrderAssociative(a: seq<FileChange>, b: seq<FileChange>, c: seq<FileChange>)
    ensures Order(Merge(a, b), c) == Order(a, Merge(b, c))
  {
    hide Fresh;
    hide Merge;
    hide PathsOf;
    MergePaths(a, b);
    MergePaths(b, c);
    var pa, pb, pc := PathsOf(a), PathsOf(b), PathsOf(c);
    FreshAssociative(pa, pb, pc);
    var x, y := Fresh(pa, pb), Fresh(pa + Fresh(pa, pb), pc);
    assert (pa + x) + y == pa + (x + y);
  }

  /** Merging is associative, for any file lists at all. */
  lemma {:induction false} MergeAssociative(a: seq<FileChange>, b: seq<FileChange>, c: seq<FileChange>)
    ensures Merge(Merge(a, b), c) == Merge(a, Merge(b, c))
  {
    OrderAssociative(a, b, c);
    var left, right := Merge(Merge(a, b), c), Merge(a, Merge(b, c));
    assert |left| == |Order(Merge(a, b), c)| == |right|;
    forall i | 0 <= i < |left| ensures left[i] == right[i] {
      MergedAt(Merge(a, b), c, i);
      MergedAt(a, Merge(b, c), i);
      var p := Order(a, Merge(b, c))[i];
      MergeEntry(a, b, p);
      MergeEntry(b, c, p);
    }
  }

  lemma {:induction false} NothingFresh(seen: seq<string>, ps: seq<string>)
    requires forall p :: p in ps ==> p in seen
    ensures Fresh(seen, ps) == []
  {
    if ps == [] {
    } else {
      NothingFresh(seen, ps[..|ps| - 1]);
    }
  }

  predicate Consistent(files: seq<FileChange>) {
    forall i, j :: 0 <= i < j < |files| && files[i].path == files[j].path ==> files[i] == files[j]
  }

  lemma {:induction false} OrderOfSelf(files: seq<FileChange>, delta: seq<FileChange>)
    requires delta == [] || delta == files
    ensures Order(files, delta) == PathsOf(files)
    ensures |Merge(files, delta)| == |files|
    ensures forall i :: 0 <= i < |files| ==> Some(Merge(files, delta)[i]) == LastFor(files, files[i].path)
  {
    NothingFresh(PathsOf(files), PathsOf(delta));
    forall i | 0 <= i < |files| ensures Some(Merge(files, delta)[i]) == LastFor(files, files[i].path) {
      MergedAt(files, delta, i);
    }
  }

  /** The empty delta is an identity exactly when every two entries for one path are equal. */
  lemma {:induction false} MergeEmptyDelta(files: seq<FileChange>)
    ensures Merge(files, []) == files <==> Consistent(files)
  {
    OrderOfSelf(files, []);
    if Merge(files, []) == files {
      forall i, j | 0 <= i < j < |files| && files[i].path == files[j].path ensures files[i] == files[j] {
        assert Some(files[i]) == LastFor(files, files[i].path) == Some(files[j]);
      }
    }
    if Consistent(files) {
      forall i | 0 <= i < |files| ensures Merge(files, [])[i] == files[i] {
        assert PathsOf(files)[i] in PathsOf(files);
        LastForUniform(files, files[i].path, files[i]);
      }
    }
  }

  /** Merging is idempotent: a set merged into itself is the set merged with nothing, so a
      duplicate-free set is unchanged. */
  lemma {:induction false} MergeIdempotent(files: seq<FileChange>)
    ensures Merge(files, files) == Merge(files, [])
    ensures Distinct(files) ==> Merge(files, files) == files
  {
    OrderOfSelf(files, []);
    OrderOfSelf(files, files);
    MergeEmptyDelta(files);
  }

  /** Into an empty record a duplicate-free set goes unchanged. */
  lemma {:induction false} MergeIntoEmpty(files: seq<FileChange>)
    requires Distinct(files)
    ensures Merge([], files) == files
  {
    FreshOfDistinct(files);
    assert Order([], files) == PathsOf(files);
    forall i | 0 <= i < |files| ensures Merge([], files)[i] == files[i] {
      MergedAt([], files, i);
      assert PathsOf(files)[i] in PathsOf(files);
      LastForUniform(files, files[i].path, files[i]);
    }
  }

  lemma {:induction false} FreshOfDistinct(files: seq<FileChange>)
    requires Distinct(files)
    ensures Fresh([], PathsOf(files)) == PathsOf(files)
  {
    if files == [] {
    } else {
      var n := |files| - 1;
      FreshOfDistinct(files[..n]);
      assert PathsOf(files) == PathsOf(files[..n]) + [files[n].path];
      assert PathsOf(files)[..n] == PathsOf(files[..n]);
      assert files[n].path !in PathsOf(files[..n]);
    }
  }

  lemma {:induction false} OrderSnoc(base: seq<FileChange>, delta: seq<FileChange>, i: nat)
    requires i < |delta|
    ensures Order(base, delta[..i + 1]) ==
            Order(base, delta[..i]) +
            if LastFor(base + delta[..i], delta[i].path).Some? then [] else [delta[i].path]
  {
    OrderPaths(base, delta[..i]);
    assert PathsOf(delta[..i + 1])[..i] == PathsOf(delta[..i]);
    assert delta[i].path in Order(base, delta[..i]) <==>
           delta[i].path in PathsOf(base) || delta[i].path in Fresh(PathsOf(base), PathsOf(delta[..i]));
  }

  ghost predicate Indexes(byPath: map<string, FileChange>, files: seq<FileChange>) {
    forall p :: LastFor(files, p) == if p in byPath then Some(byPath[p]) else None
  }

  lemma {:induction false} IndexSnoc(byPath: map<string, FileChange>, files: seq<FileChange>, f: FileChange)
    requires Indexes(byPath, files)
    ensures Indexes(byPath[f.path := f], files + [f])
  {
    assert (files + [f])[..|files|] == files;
  }

  method MergeFiles(base: seq<FileChange>, delta: seq<FileChange>) returns (files: seq<FileChange>)
    ensures files == Merge(base, delta)
  {
    var byPath: map<string, FileChange> := map[];
    var order: seq<string> := [];
    for i := 0 to |base|
      invariant order == PathsOf(base[..i])
      invariant Indexes(byPath, base[..i])
    {
      IndexSnoc(byPath, base[..i], base[i]);
      assert base[..i + 1] == base[..i] + [base[i]];
      byPath := byPath[base[i].path := base[i]];
      order := order + [base[i].path];
    }
    assert base[..|base|] == base;
    assert base + delta[..0] == base;
    for i := 0 to |delta|
      invariant order == Order(base, delta[..i])
      invariant Indexes(byPath, base + delta[..i])
    {
      OrderSnoc(base, delta, i);
      IndexSnoc(byPath, base + delta[..i], delta[i]);
      assert base + delta[..i + 1] == base + delta[..i] + [delta[i]];
      if delta[i].path !in byPath {
        order := order + [delta[i].path];
      }
      byPath := byPath[delta[i].path := delta[i]];
    }
    assert delta[..|delta|] == delta;
    files := Emit(base, delta, byPath, order);
  }

  method Emit(base: seq<FileChange>, delta: seq<FileChange>, byPath: map<string, FileChange>, order: seq<string>)
      returns (files: seq<FileChange>)
    requires order == Order(base, delta)
    requires Indexes(byPath, base + delta)
    ensures files == Merge(base, delta)
  {
    OrderPaths(base, delta);
    files := [];
    for i := 0 to |order|
      invariant files == Merge(base, delta)[..i]
    {
      assert order[i] in order;
      files := files + [byPath[order[i]]];
    }
  }

  // ---- applyChangeSet ----

  type Tree = map<string, string>
  type PatchTool = (string, Option<string>) -> Option<Option<string>>

  /** What a tree holds at a path. */
  function At(t: Tree, p: string): Option<string> {
    if p in t then Some(t[p]) else None
  }

  function Put(t: Tree, p: string, slot: Option<string>): Tree {
    match slot
    case Some(body) => t[p := body]
    case None => t - {p}
  }

  function PatchText(patch: string): string {
    if patch != "" && patch[|patch| - 1] == '\n' then patch else patch + "\n"
  }

  /** What an entry makes of the contents of its file; None when the patch does not apply. */
  function NewSlot(git: PatchTool, f: FileChange, slot: Option<string>): Option<Option<string>> {
    match ModeOf(f)
    case Delete => Some(None)
    case Write => Some(f.contents)
    case Patch => git(PatchText(f.patch), slot)
    case Empty => Some(slot)
  }

  datatype Status = Fine | NoChanges | TooLarge | UnsafePath | ApplyFailed

  datatype Progress = Progress(tree: Tree, applied: seq<string>, skipped: seq<string>, status: Status)

  function SkipNote(rel: string): string {
    rel + " (already absent)"
  }

  /** One round of the write loop. */
  function WriteOne(git: PatchTool, root: seq<string>, r: Progress, f: FileChange): Progress {
    var rel := Clean(f.path);
    if !WithinRoot(root, JoinRoot(root, rel)) then r.(status := UnsafePath)
    else
      match ModeOf(f)
      case Delete =>
        if rel !in r.tree then r.(skipped := r.skipped + [SkipNote(rel)])
        else r.(tree := r.tree - {rel}, applied := r.applied + [rel])
      case Write => r.(tree := r.tree[rel := f.contents.value], applied := r.applied + [rel])
      case Patch =>
        (match git(PatchText(f.patch), At(r.tree, rel))
         case None => r.(status := ApplyFailed)
         case Some(slot) => r.(tree := Put(r.tree, rel, slot), applied := r.applied + [rel]))
      case Empty => r
  }

  /** The write loop over all entries, stopping at the first failure. */
  function WriteAll(git: PatchTool, root: seq<string>, t: Tree, files: seq<FileChange>): Progress {
    if files == [] then Progress(t, [], [], Fine)
    else
      var r := WriteAll(git, root, t, files[..|files| - 1]);
      if r.status != Fine then r else WriteOne(git, root, r, files[|files| - 1])
  }

  datatype Limits = Limits(maxFiles: int, maxBytes: int)

  function BytesOf(f: FileChange): nat {
    |f.patch| + if f.contents.Some? then |f.contents.value| else 0
  }

  function Bytes(files: seq<FileChange>): nat {
    if files == [] then 0 else Bytes(files[..|files| - 1]) + BytesOf(files[|files| - 1])
  }

  predicate AllAccepted(files: seq<FileChange>) {
    forall i :: 0 <= i < |files| ==> PathRejection(files[i].path) == Accepted
  }

  predicate WithinLimits(files: seq<FileChange>, limits: Limits) {
    && (limits.maxFiles > 0 ==> |files| <= limits.maxFiles)
    && (limits.maxBytes > 0 ==> Bytes(files) <= limits.maxBytes)
  }

  /** The whole of `applyChangeSet`: the refusals before anything is written, then the write loop. */
  function Apply(git: PatchTool, root: seq<string>, t: Tree, files: seq<FileChange>, limits: Limits): Progress {
    var untouched := Progress(t, [], [], Fine);
    if files == [] then untouched.(status := NoChanges)
    else if limits.maxFiles > 0 && |files| > limits.maxFiles then untouched.(status := TooLarge)
    else if !AllAccepted(files) then untouched.(status := UnsafePath)
    else if limits.maxBytes > 0 && Bytes(files) > limits.maxBytes then untouched.(status := TooLarge)
    else
      var r := WriteAll(git, root, t, files);
      if r.status == Fine && r.applied == [] then r.(status := NoChanges) else r
  }
}
