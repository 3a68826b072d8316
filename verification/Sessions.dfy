/** A coding session: each step applies its delta to the session's tree and merges it into the
    recorded change set; delivery later applies only the recorded set to a fresh clone. */
module Sessions {
  import opened Options
  import opened Text
  import opened Paths
  import opened ChangeSets

  // ---- staged apply ----

  lemma {:induction false} OneNeverUnsafe(git: PatchTool, root: seq<string>, r: Progress, f: FileChange)
    requires PathRejection(f.path) == Accepted && r.status == Fine
    ensures WriteOne(git, root, r, f).status in {Fine, ApplyFailed}
  {
    AcceptedStaysWithinRoot(root, f.path);
    hide PathRejection;
    hide Clean;
    hide WithinRoot;
    hide ModeOf;
  }

  lemma {:induction false} WriteNeverUnsafe(git: PatchTool, root: seq<string>, t: Tree, files: seq<FileChange>)
    requires AllAccepted(files)
    ensures WriteAll(git, root, t, files).status in {Fine, ApplyFailed}
  {
    if files == [] {
    } else {
      var n := |files| - 1;
      WriteNeverUnsafe(git, root, t, files[..n]);
      var r := WriteAll(git, root, t, files[..n]);
      hide WriteOne;
      hide PathRejection;
      if r.status == Fine {
        OneNeverUnsafe(git, root, r, files[n]);
      }
    }
  }

  lemma {:induction false} OneNotApplied(git: PatchTool, root: seq<string>, r: Progress, f: FileChange)
    ensures var r' := WriteOne(git, root, r, f); r'.applied == [] ==> r.applied == [] && r'.tree == r.tree
  {
    hide Clean;
    hide WithinRoot;
    hide ModeOf;
  }

  lemma {:induction false} NothingAppliedNothingChanged(git: PatchTool, root: seq<string>, t: Tree,
                                                        files: seq<FileChange>)
    ensures var r := WriteAll(git, root, t, files); r.applied == [] ==> r.tree == t
  {
    if files == [] {
    } else {
      var n := |files| - 1;
      NothingAppliedNothingChanged(git, root, t, files[..n]);
      OneNotApplied(git, root, WriteAll(git, root, t, files[..n]), files[n]);
      hide WriteOne;
    }
  }

  /** Anything but success or a failed patch leaves the tree as it was; and a failed patch is the only
      way to fail once writing has begun. */
  lemma {:induction false} RefusalsLeaveTheTree(git: PatchTool, root: seq<string>, t: Tree, files: seq<FileChange>,
      limits: Limits)
    ensures var r := Apply(git, root, t, files, limits);
            && (r.status !in {Fine, ApplyFailed} ==> r.tree == t)
            && (files == [] ==> r.status == NoChanges)
            && (files != [] && !(limits.maxFiles > 0 && |files| > limits.maxFiles) && !AllAccepted(files)
                ==> r.status == UnsafePath)
            && (files != [] && AllAccepted(files) ==> (r.status == TooLarge <==> !WithinLimits(files, limits)))
            && (r.status == UnsafePath ==> !AllAccepted(files))
  {
    NothingAppliedNothingChanged(git, root, t, files);
    if AllAccepted(files) {
      WriteNeverUnsafe(git, root, t, files);
    }
  }

  /** How large a set is: the lengths of its patches and contents. */
  lemma {:induction false} BytesAdd(files: seq<FileChange>, f: FileChange)
    ensures Bytes([]) == 0
    ensures Bytes(files + [f]) == Bytes(files) + |f.patch| + match f.contents case Some(body) => |body| case None => 0
  {
    assert (files + [f])[..|files|] == files;
  }

  /** The verdict on a set, in the order of the checks: nothing to do, too many entries, an unacceptable path, too many
      bytes; a set that passes them all is written, and a success that applied nothing reads as no changes. */
  lemma {:induction false} ApplyVerdict(git: PatchTool, root: seq<string>, t: Tree, files: seq<FileChange>,
      limits: Limits)
    ensures var r, w := Apply(git, root, t, files, limits), WriteAll(git, root, t, files);
            var many := limits.maxFiles > 0 && |files| > limits.maxFiles;
            var refused := exists i :: 0 <= i < |files| && PathRejection(files[i].path) != Accepted;
            var large := limits.maxBytes > 0 && Bytes(files) > limits.maxBytes;
            && (files == [] ==> r == Progress(t, [], [], NoChanges))
            && (files != [] && many ==> r == Progress(t, [], [], TooLarge))
            && (files != [] && !many && refused ==> r == Progress(t, [], [], UnsafePath))
            && (files != [] && !many && !refused && large ==> r == Progress(t, [], [], TooLarge))
            && (files != [] && !many && !refused && !large ==>
                  && r.tree == w.tree && r.applied == w.applied && r.skipped == w.skipped
                  && (w.status == Fine && w.applied == [] <==> r.status == NoChanges)
                  && (w.status == Fine && w.applied != [] <==> r.status == Fine)
                  && (w.status != Fine <==> r.status == ApplyFailed))
  {
    if AllAccepted(files) {
      WriteNeverUnsafe(git, root, t, files);
    }
    hide WriteAll;
    hide PathRejection;
    hide Bytes;
  }

  lemma {:induction false} OneFails(git: PatchTool, root: seq<string>, r: Progress, f: FileChange)
    requires WriteOne(git, root, r, f).status != Fine == r.status
    ensures WriteOne(git, root, r, f) == r.(status := WriteOne(git, root, r, f).status)
  {
    hide Clean;
    hide WithinRoot;
    hide ModeOf;
  }

  /** A failing write phase leaves exactly the effect of the entries before the failing one. */
  lemma {:induction false} FailureLeavesThePrefix(git: PatchTool, root: seq<string>, t: Tree, files: seq<FileChange>)
      returns (k: nat)
    requires WriteAll(git, root, t, files).status != Fine
    ensures k < |files|
    ensures WriteAll(git, root, t, files[..k]).status == Fine
    ensures WriteAll(git, root, t, files[..k + 1]).status != Fine
    ensures WriteAll(git, root, t, files) ==
            WriteAll(git, root, t, files[..k]).(status := WriteAll(git, root, t, files).status)
  {
    hide WriteOne;
    var n := |files| - 1;
    if WriteAll(git, root, t, files[..n]).status == Fine {
      k := n;
      assert files[..n + 1] == files;
      OneFails(git, root, WriteAll(git, root, t, files[..n]), files[n]);
    } else {
      k := FailureLeavesThePrefix(git, root, t, files[..n]);
      assert files[..n][..k] == files[..k] && files[..n][..k + 1] == files[..k + 1];
    }
  }

  /** The reports of those of `all` that landed, and of those that did not, in order. */
  function AppliedAmong(all: seq<string>, landed: seq<bool>): seq<string>
    requires |all| == |landed|
  {
    if all == [] then []
    else
      var n := |all| - 1;
      AppliedAmong(all[..n], landed[..n]) + if landed[n] then [all[n]] else []
  }

  function SkippedAmong(all: seq<string>, landed: seq<bool>): seq<string>
    requires |all| == |landed|
  {
    if all == [] then []
    else
      var n := |all| - 1;
      SkippedAmong(all[..n], landed[..n]) + if landed[n] then [] else [SkipNote(all[n])]
  }

  /** The cleaned paths of the entries that ask for a change. */
  function Asked(files: seq<FileChange>): seq<string> {
    if files == [] then []
    else
      var f := files[|files| - 1];
      Asked(files[..|files| - 1]) + if ModeOf(f) == Empty then [] else [Clean(f.path)]
  }

  lemma {:induction false} AskedAll(files: seq<FileChange>)
    ensures |Asked(files)| <= |files|
    ensures |Asked(files)| == |files| <==> NoEmptyEntry(files)
  {
    hide ModeOf;
    hide Clean;
    if files == [] {
    } else {
      AskedAll(files[..|files| - 1]);
    }
  }

  lemma {:induction false} AmongSize(all: seq<string>, landed: seq<bool>)
    requires |all| == |landed|
    ensures |AppliedAmong(all, landed)| + |SkippedAmong(all, landed)| == |all|
  {
    if all == [] {
    } else {
      AmongSize(all[..|all| - 1], landed[..|all| - 1]);
    }
  }

  lemma {:induction false} AmongSnoc(all: seq<string>, landed: seq<bool>, rel: string, land: bool)
    requires |all| == |landed|
    ensures AppliedAmong(all + [rel], landed + [land]) == AppliedAmong(all, landed) + if land then [rel] else []
    ensures SkippedAmong(all + [rel], landed + [land]) ==
            SkippedAmong(all, landed) + if land then [] else [SkipNote(rel)]
  {
    assert (all + [rel])[..|all|] == all;
    assert (landed + [land])[..|landed|] == landed;
  }

  lemma {:induction false} WriteOneReports(git: PatchTool, root: seq<string>, r: Progress, f: FileChange)
    requires WriteOne(git, root, r, f).status == Fine == r.status
    ensures var r', rel := WriteOne(git, root, r, f), Clean(f.path);
            var land := ModeOf(f) != Delete || rel in r.tree;
            && r'.applied == r.applied + (if land && ModeOf(f) != Empty then [rel] else [])
            && r'.skipped == r.skipped + (if land then [] else [SkipNote(rel)])
  {}

  lemma {:induction false} WriteReports(git: PatchTool, root: seq<string>, t: Tree, files: seq<FileChange>)
      returns (landed: seq<bool>)
    requires WriteAll(git, root, t, files).status == Fine
    ensures |landed| == |Asked(files)|
    ensures WriteAll(git, root, t, files).applied == AppliedAmong(Asked(files), landed)
    ensures WriteAll(git, root, t, files).skipped == SkippedAmong(Asked(files), landed)
  {
    if files == [] {
      landed := [];
    } else {
      var n := |files| - 1;
      var r := WriteAll(git, root, t, files[..n]);
      landed := WriteReports(git, root, t, files[..n]);
      WriteOneReports(git, root, r, files[n]);
      if ModeOf(files[n]) != Empty {
        var land := ModeOf(files[n]) != Delete || Clean(files[n].path) in r.tree;
        AmongSnoc(Asked(files[..n]), landed, Clean(files[n].path), land);
        landed := landed + [land];
      } else {
        assert Asked(files) == Asked(files[..n]);
      }
    }
  }

  predicate NoEmptyEntry(files: seq<FileChange>) {
    forall i :: 0 <= i < |files| ==> ModeOf(files[i]) != Empty
  }

  /** On success every entry that asks for a change is reported exactly once, applied or skipped, in
      order; the two reports account for all entries exactly when none is empty. */
  lemma {:induction false} ReportsAccount(git: PatchTool, root: seq<string>, t: Tree, files: seq<FileChange>)
      returns (landed: seq<bool>)
    requires WriteAll(git, root, t, files).status == Fine
    ensures |landed| == |Asked(files)|
    ensures WriteAll(git, root, t, files).applied == AppliedAmong(Asked(files), landed)
    ensures WriteAll(git, root, t, files).skipped == SkippedAmong(Asked(files), landed)
    ensures |AppliedAmong(Asked(files), landed)| + |SkippedAmong(Asked(files), landed)| == |files|
            <==> NoEmptyEntry(files)
  {
    landed := WriteReports(git, root, t, files);
    AmongSize(Asked(files), landed);
    AskedAll(files);
  }

  lemma {:induction false} OtherUntouched(git: PatchTool, root: seq<string>, r: Progress, f: FileChange, p: string)
    requires Clean(f.path) != p
    ensures At(WriteOne(git, root, r, f).tree, p) == At(r.tree, p)
  {}

  /** Whatever happens, a path that is not an entry's cleaned path keeps its contents. */
  lemma {:induction false} OthersUntouched(git: PatchTool, root: seq<string>, t: Tree, files: seq<FileChange>,
                                           p: string)
    requires forall i :: 0 <= i < |files| ==> Clean(files[i].path) != p
    ensures At(WriteAll(git, root, t, files).tree, p) == At(t, p)
  {
    if files == [] {
    } else {
      var n := |files| - 1;
      OthersUntouched(git, root, t, files[..n], p);
      OtherUntouched(git, root, WriteAll(git, root, t, files[..n]), files[n], p);
    }
  }

  // ---- the effect of a set, file by file ----

  /** What the entries for the file `p` make of its contents, one after another; None when a patch does not apply. */
  function Effect(git: PatchTool, files: seq<FileChange>, p: string, slot: Option<string>): Option<Option<string>> {
    if files == [] then Some(slot)
    else
      var f, before := files[|files| - 1], Effect(git, files[..|files| - 1], p, slot);
      if before.None? || Clean(f.path) != p then before else NewSlot(git, f, before.value)
  }

  /** What applying an accepted entry does, by its fields. A deletion leaves no file, and is reported as skipped where
      there was none. Otherwise a patch goes to the tool, with a line break at its end: it fails and changes nothing,
      or leaves what the tool gives. Otherwise contents are written as they are, and an entry without any changes
      nothing and is not reported. No other file is touched. */
  lemma {:induction false} EntryByFields(git: PatchTool, root: seq<string>, r: Progress, f: FileChange)
    requires PathRejection(f.path) == Accepted && r.status == Fine
    ensures var r', rel := WriteOne(git, root, r, f), Clean(f.path);
            && (forall q :: q != rel ==> At(r'.tree, q) == At(r.tree, q))
            && (f.delete ==>
                  && r'.status == Fine && rel !in r'.tree
                  && r'.applied == r.applied + (if rel in r.tree then [rel] else [])
                  && r'.skipped == r.skipped + (if rel in r.tree then [] else [rel + " (already absent)"]))
            && (!f.delete && f.patch != "" ==>
                  var text := if f.patch[|f.patch| - 1] == '\n' then f.patch else f.patch + "\n";
                  match git(text, At(r.tree, rel))
                  case None => r' == r.(status := ApplyFailed)
                  case Some(slot) =>
                    && r'.status == Fine && At(r'.tree, rel) == slot
                    && r'.applied == r.applied + [rel] && r'.skipped == r.skipped)
            && (!f.delete && f.patch == "" ==>
                  && r'.status == Fine && r'.skipped == r.skipped
                  && r'.applied == r.applied + (if f.contents.Some? then [rel] else [])
                  && At(r'.tree, rel) == if f.contents.Some? then f.contents else At(r.tree, rel))
  {
    AcceptedStaysWithinRoot(root, f.path);
    hide Clean;
    hide WithinRoot;
    hide PathRejection;
  }

  /** The second check: an entry whose place is not below the root is refused and changes nothing. */
  lemma {:induction false} OutsideRefused(git: PatchTool, root: seq<string>, r: Progress, f: FileChange)
    requires !WithinRoot(root, JoinRoot(root, Clean(f.path)))
    ensures WriteOne(git, root, r, f) == r.(status := UnsafePath)
  {}

  lemma {:induction false} WriteOneEffect(git: PatchTool, root: seq<string>, r: Progress, f: FileChange)
    requires PathRejection(f.path) == Accepted && r.status == Fine
    ensures var r' := WriteOne(git, root, r, f);
            var slot := NewSlot(git, f, At(r.tree, Clean(f.path)));
            && (r'.status == Fine <==> slot.Some?)
            && (slot.Some? ==> forall q :: At(r'.tree, q) == if q == Clean(f.path) then slot.value else At(r.tree, q))
  {
    AcceptedStaysWithinRoot(root, f.path);
    hide Clean;
    hide WithinRoot;
    hide PathRejection;
  }

  /** An acceptable set succeeds exactly when, file by file, all its patches apply one after another to the original
      contents, and then each file holds what its entries make of the original contents. */
  lemma {:induction false} WriteAllEffect(git: PatchTool, root: seq<string>, t: Tree, files: seq<FileChange>)
    requires AllAccepted(files)
    ensures var r := WriteAll(git, root, t, files);
            && (r.status == Fine <==> forall p :: Effect(git, files, p, At(t, p)).Some?)
            && (r.status == Fine ==> forall p :: Effect(git, files, p, At(t, p)) == Some(At(r.tree, p)))
  {
    if files == [] {
    } else {
      var n := |files| - 1;
      var front, f := files[..n], files[n];
      WriteAllEffect(git, root, t, front);
      var r := WriteAll(git, root, t, front);
      hide WriteOne;
      hide Clean;
      hide PathRejection;
      hide NewSlot;
      if r.status == Fine {
        WriteOneEffect(git, root, r, f);
        var rel := Clean(f.path);
        assert Effect(git, files, rel, At(t, rel)) == NewSlot(git, f, At(r.tree, rel));
      } else {
        var p :| Effect(git, front, p, At(t, p)).None?;
        assert Effect(git, files, p, At(t, p)).None?;
      }
    }
  }

  lemma {:induction false} EffectAppend(git: PatchTool, a: seq<FileChange>, b: seq<FileChange>, p: string,
                                        slot: Option<string>)
    ensures var e := Effect(git, a, p, slot);
            Effect(git, a + b, p, slot) == if e.None? then None else Effect(git, b, p, e.value)
  {
    if b == [] {
      assert a + b == a;
    } else {
      var n := |b| - 1;
      EffectAppend(git, a, b[..n], p, slot);
      assert (a + b)[..|a + b| - 1] == a + b[..n];
      hide NewSlot;
      hide Clean;
    }
  }

  lemma {:induction false} EffectSnoc(git: PatchTool, a: seq<FileChange>, f: FileChange, p: string,
                                      slot: Option<string>)
    ensures var e := Effect(git, a, p, slot);
            Effect(git, a + [f], p, slot) == if e.None? || Clean(f.path) != p then e else NewSlot(git, f, e.value)
  {
    assert (a + [f])[..|a|] == a;
  }

  /** An entry for another file plays no part. */
  lemma {:induction false} EffectUpdate(git: PatchTool, files: seq<FileChange>, i: nat, f: FileChange, p: string,
                                        slot: Option<string>)
    requires i < |files| && Clean(files[i].path) != p && Clean(f.path) != p
    ensures Effect(git, files[i := f], p, slot) == Effect(git, files, p, slot)
  {
    var n := |files| - 1;
    hide NewSlot;
    hide Clean;
    if i < n {
      EffectUpdate(git, files[..n], i, f, p, slot);
      assert files[i := f][..n] == files[..n][i := f];
    } else {
      assert files[i := f][..n] == files[..n];
    }
  }

  lemma {:induction false} EffectNone(git: PatchTool, files: seq<FileChange>, p: string, slot: Option<string>)
    requires forall k :: 0 <= k < |files| ==> Clean(files[k].path) != p
    ensures Effect(git, files, p, slot) == Some(slot)
  {
    if files == [] {
    } else {
      EffectNone(git, files[..|files| - 1], p, slot);
    }
  }

  /** The only entry for its file. */
  lemma {:induction false} EffectAlone(git: PatchTool, files: seq<FileChange>, i: nat, slot: Option<string>)
    requires i < |files|
    requires forall k :: 0 <= k < |files| && k != i ==> Clean(files[k].path) != Clean(files[i].path)
    ensures Effect(git, files, Clean(files[i].path), slot) == NewSlot(git, files[i], slot)
  {
    hide Clean;
    hide NewSlot;
    var n := |files| - 1;
    if i < n {
      EffectAlone(git, files[..n], i, slot);
    } else {
      EffectNone(git, files[..n], Clean(files[i].path), slot);
    }
  }

  lemma {:induction false} SameTree(a: Tree, b: Tree)
    requires forall p :: At(a, p) == At(b, p)
    ensures a == b
  {
    forall p | p in a || p in b ensures p in a && p in b && a[p] == b[p] {
      assert At(a, p) == At(b, p);
    }
  }

  // ---- merging replays ----

  /** Applying `files` to `base` succeeds and gives `tree`. */
  ghost predicate Replays(git: PatchTool, root: seq<string>, base: Tree, files: seq<FileChange>, tree: Tree) {
    var r := WriteAll(git, root, base, files);
    r.status == Fine && r.tree == tree
  }

  /** Every delta entry over an already recorded key does to the original contents of its file what it did to the
      session's contents. */
  ghost predicate Agrees(git: PatchTool, base: Tree, cur: Tree, recorded: seq<FileChange>, delta: seq<FileChange>) {
    forall i :: 0 <= i < |delta| && delta[i].path in PathsOf(recorded) ==>
      NewSlot(git, delta[i], At(base, Clean(delta[i].path))) == NewSlot(git, delta[i], At(cur, Clean(delta[i].path)))
  }

  /** No delta entry patches an already recorded key. */
  predicate NoRepatch(recorded: seq<FileChange>, delta: seq<FileChange>) {
    forall i :: 0 <= i < |delta| && ModeOf(delta[i]) == Patch ==> delta[i].path !in PathsOf(recorded)
  }

  /** No entry spells the file of the key `q` otherwise. */
  predicate OnlySpelling(files: seq<FileChange>, q: string) {
    forall k :: 0 <= k < |files| && Clean(files[k].path) == Clean(q) ==> files[k].path == q
  }

  /** Where a delta entry is over an already recorded key, that is the only spelling of its file. */
  predicate RewritesAlone(recorded: seq<FileChange>, delta: seq<FileChange>) {
    forall i :: 0 <= i < |delta| && delta[i].path in PathsOf(recorded) ==>
      OnlySpelling(recorded, delta[i].path) && OnlySpelling(delta, delta[i].path)
  }

  lemma {:induction false} NoRepatchAgrees(git: PatchTool, base: Tree, cur: Tree, recorded: seq<FileChange>,
                                           delta: seq<FileChange>)
    requires NoEmptyEntry(delta) && NoRepatch(recorded, delta)
    ensures Agrees(git, base, cur, recorded, delta)
  {
    hide Clean;
  }

  lemma {:induction false} MergeAccepted(recorded: seq<FileChange>, delta: seq<FileChange>)
    requires AllAccepted(recorded) && AllAccepted(delta)
    ensures AllAccepted(Merge(recorded, delta))
  {
    var merged := Merge(recorded, delta);
    hide PathRejection;
    forall i | 0 <= i < |merged| ensures PathRejection(merged[i].path) == Accepted {
      MergedAt(recorded, delta, i);
      assert merged[i] in recorded || merged[i] in delta;
    }
  }

  /** One step, exactly, whatever the paths: the merged record replays the session if and only if, for each file, it
      makes of the original contents what the record followed by the delta makes of them. */
  lemma {:induction false} MergeReplaysExactly(git: PatchTool, root: seq<string>, base: Tree, cur: Tree,
                                               recorded: seq<FileChange>, delta: seq<FileChange>)
    requires AllAccepted(recorded) && AllAccepted(delta)
    requires Replays(git, root, base, recorded, cur)
    requires WriteAll(git, root, cur, delta).status == Fine
    ensures Replays(git, root, base, Merge(recorded, delta), WriteAll(git, root, cur, delta).tree)
            <==> forall p :: Effect(git, Merge(recorded, delta), p, At(base, p)) ==
                             Effect(git, recorded + delta, p, At(base, p))
    ensures forall p :: Effect(git, recorded, p, At(base, p)) == Some(At(cur, p))
  {
    var merged, after := Merge(recorded, delta), WriteAll(git, root, cur, delta).tree;
    MergeAccepted(recorded, delta);
    WriteAllEffect(git, root, base, recorded);
    WriteAllEffect(git, root, cur, delta);
    WriteAllEffect(git, root, base, merged);
    hide Merge;
    hide WriteAll;
    hide AllAccepted;
    forall p ensures Effect(git, recorded + delta, p, At(base, p)) == Some(At(after, p)) {
      EffectAppend(git, recorded, delta, p, At(base, p));
      assert Effect(git, recorded, p, At(base, p)) == Some(At(cur, p));
    }
    if forall p :: Effect(git, merged, p, At(base, p)) == Effect(git, recorded + delta, p, At(base, p)) {
      SameTree(WriteAll(git, root, base, merged).tree, after);
    }
  }

  lemma {:induction false} DistinctEntry(files: seq<FileChange>, i: nat)
    requires Distinct(files) && i < |files|
    ensures LastFor(files, files[i].path) == Some(files[i])
  {
    var n := |files| - 1;
    if i == n {
    } else {
      assert files[i].path != files[n].path;
      DistinctEntry(files[..n], i);
    }
  }

  /** Merging a single entry: it takes the place of the one with its key, or comes last. */
  lemma {:induction false} MergeOne(recorded: seq<FileChange>, f: FileChange)
    requires Distinct(recorded)
    ensures f.path !in PathsOf(recorded) ==> Merge(recorded, [f]) == recorded + [f]
    ensures forall i :: 0 <= i < |recorded| && recorded[i].path == f.path ==>
              Merge(recorded, [f]) == recorded[i := f]
  {
    assert PathsOf([f]) == [f.path] && [f.path][..0] == [] && [f][..0] == [];
    assert Fresh(PathsOf(recorded), []) == [];
    assert Order(recorded, [f]) == PathsOf(recorded) + if f.path in PathsOf(recorded) then [] else [f.path];
    assert LastFor([f], f.path) == Some(f);
    forall i | 0 <= i < |Merge(recorded, [f])|
      ensures Merge(recorded, [f])[i] ==
              if i < |recorded| && recorded[i].path != f.path then recorded[i] else f
    {
      MergedAt(recorded, [f], i);
      if i < |recorded| {
        DistinctEntry(recorded, i);
      }
    }
    forall i | 0 <= i < |recorded| && recorded[i].path == f.path
      ensures Merge(recorded, [f]) == recorded[i := f]
    {
      assert PathsOf(recorded)[i] in PathsOf(recorded);
      forall j | 0 <= j < |recorded| && j != i ensures recorded[j].path != f.path {
        DistinctEntry(recorded, i);
        DistinctEntry(recorded, j);
      }
    }
  }

  /** A duplicate-free delta is merged entry by entry. */
  lemma {:induction false} MergeSnoc(recorded: seq<FileChange>, delta: seq<FileChange>)
    requires delta != [] && Distinct(delta)
    ensures var n := |delta| - 1; Merge(recorded, delta) == Merge(Merge(recorded, delta[..n]), [delta[n]])
  {
    var n := |delta| - 1;
    forall k | 0 <= k < n ensures PathsOf(delta[..n])[k] != delta[n].path {
      assert delta[k].path != delta[n].path;
    }
    MergeOne(delta[..n], delta[n]);
    assert delta[..n] + [delta[n]] == delta;
    MergeAssociative(recorded, delta[..n], [delta[n]]);
  }

  lemma {:induction false} MergedAddsOne(git: PatchTool, merged: seq<FileChange>, all: seq<FileChange>,
                                         f: FileChange, p: string,
                                         slot: Option<string>)
    requires Distinct(merged) && Effect(git, merged, p, slot) == Effect(git, all, p, slot)
    requires f.path in PathsOf(merged) ==> Clean(f.path) != p
    ensures Effect(git, Merge(merged, [f]), p, slot) == Effect(git, all + [f], p, slot)
  {
    MergeOne(merged, f);
    EffectSnoc(git, all, f, p, slot);
    hide Merge;
    hide NewSlot;
    hide Clean;
    if f.path in PathsOf(merged) {
      var i :| 0 <= i < |merged| && PathsOf(merged)[i] == f.path;
      EffectUpdate(git, merged, i, f, p, slot);
    } else {
      EffectSnoc(git, merged, f, p, slot);
    }
  }

  /** No entry for the file is over a recorded key. */
  predicate AddsOnly(recorded: seq<FileChange>, delta: seq<FileChange>, p: string) {
    forall i :: 0 <= i < |delta| && Clean(delta[i].path) == p ==> delta[i].path !in PathsOf(recorded)
  }

  lemma {:induction false} AddsOnlyFront(recorded: seq<FileChange>, delta: seq<FileChange>, p: string)
    requires delta != [] && AddsOnly(recorded, delta, p) && Distinct(delta)
    ensures AddsOnly(recorded, delta[..|delta| - 1], p) && Distinct(delta[..|delta| - 1])
  {
    hide Clean;
    hide PathsOf;
  }

  lemma {:induction false} LastNotKnown(recorded: seq<FileChange>, delta: seq<FileChange>, p: string)
    requires delta != [] && AddsOnly(recorded, delta, p) && Distinct(delta)
    ensures delta[|delta| - 1].path in PathsOf(Merge(recorded, delta[..|delta| - 1])) ==>
              Clean(delta[|delta| - 1].path) != p
  {
    hide Clean;
    hide Merge;
    if delta[|delta| - 1].path in PathsOf(Merge(recorded, delta[..|delta| - 1])) {
      KnownKey(recorded, delta);
    }
  }

  lemma {:induction false} MergeNothing(recorded: seq<FileChange>)
    requires Distinct(recorded)
    ensures Merge(recorded, []) == recorded
  {
    MergeEmptyDelta(recorded);
  }

  lemma {:induction false} MergeDistinct(recorded: seq<FileChange>, delta: seq<FileChange>)
    requires Distinct(recorded)
    ensures Distinct(Merge(recorded, delta))
  {
    MergeShape(recorded, delta);
  }

  /** For a file none of whose delta entries is over a recorded key, the merged record is the record, then the delta. */
  lemma {:induction false} MergedAddsOnly(git: PatchTool, recorded: seq<FileChange>, delta: seq<FileChange>, p: string,
                                          slot: Option<string>)
    requires Distinct(recorded) && Distinct(delta)
    requires AddsOnly(recorded, delta, p)
    ensures Effect(git, Merge(recorded, delta), p, slot) == Effect(git, recorded + delta, p, slot)
  {
    hide Merge;
    hide Clean;
    hide Effect;
    hide PathsOf;
    hide Distinct;
    hide AddsOnly;
    if delta == [] {
      MergeNothing(recorded);
      assert recorded + delta == recorded;
    } else {
      var n := |delta| - 1;
      var merged, f := Merge(recorded, delta[..n]), delta[n];
      AddsOnlyFront(recorded, delta, p);
      MergedAddsOnly(git, recorded, delta[..n], p, slot);
      MergeDistinct(recorded, delta[..n]);
      MergeSnoc(recorded, delta);
      assert recorded + delta == (recorded + delta[..n]) + [f];
      LastNotKnown(recorded, delta, p);
      MergedAddsOne(git, merged, recorded + delta[..n], f, p, slot);
    }
  }

  lemma {:induction false} KnownKey(recorded: seq<FileChange>, delta: seq<FileChange>)
    requires delta != [] && Distinct(delta)
    requires delta[|delta| - 1].path in PathsOf(Merge(recorded, delta[..|delta| - 1]))
    ensures delta[|delta| - 1].path in PathsOf(recorded)
  {
    var n := |delta| - 1;
    MergeShape(recorded, delta[..n]);
    forall k | 0 <= k < n ensures PathsOf(delta[..n])[k] != delta[n].path {
      assert delta[k].path != delta[n].path;
    }
  }

  /** For the file of a rewritten key that is its only spelling, the merged record holds the delta's entry alone. */
  lemma {:induction false} MergedRewrites(git: PatchTool, recorded: seq<FileChange>, delta: seq<FileChange>, i: nat,
                                          slot: Option<string>)
    requires Distinct(recorded) && Distinct(delta) && i < |delta|
    requires OnlySpelling(recorded, delta[i].path) && OnlySpelling(delta, delta[i].path)
    ensures Effect(git, Merge(recorded, delta), Clean(delta[i].path), slot) == NewSlot(git, delta[i], slot)
    ensures Effect(git, delta, Clean(delta[i].path), slot) == NewSlot(git, delta[i], slot)
  {
    var merged, q := Merge(recorded, delta), delta[i].path;
    MergeShape(recorded, delta);
    MergeEntry(recorded, delta, q);
    DistinctEntry(delta, i);
    assert PathsOf(delta)[i] in PathsOf(delta);
    hide Merge;
    hide Clean;
    hide NewSlot;
    var m :| 0 <= m < |merged| && PathsOf(merged)[m] == q;
    DistinctEntry(merged, m);
    forall k | 0 <= k < |merged| && k != m ensures Clean(merged[k].path) != Clean(merged[m].path) {
      assert merged[k].path != q;
      assert PathsOf(merged)[k] in PathsOf(merged);
      OtherFile(recorded, delta, merged[k].path, q);
    }
    EffectAlone(git, merged, m, slot);
    EffectAlone(git, delta, i, slot);
  }

  lemma {:induction false} OtherFile(recorded: seq<FileChange>, delta: seq<FileChange>, r: string, q: string)
    requires OnlySpelling(recorded, q) && OnlySpelling(delta, q) && r != q
    requires r in PathsOf(recorded) || r in PathsOf(delta)
    ensures Clean(r) != Clean(q)
  {
    if r in PathsOf(recorded) {
      var k :| 0 <= k < |recorded| && PathsOf(recorded)[k] == r;
      assert recorded[k].path == r;
    } else {
      var k :| 0 <= k < |delta| && PathsOf(delta)[k] == r;
      assert delta[k].path == r;
    }
  }

  lemma {:induction false} RewrittenEffect(git: PatchTool, root: seq<string>, base: Tree, cur: Tree,
                                           recorded: seq<FileChange>,
                                           delta: seq<FileChange>, i: nat)
    requires Distinct(recorded) && Distinct(delta) && RewritesAlone(recorded, delta)
    requires i < |delta| && delta[i].path in PathsOf(recorded)
    requires Effect(git, recorded, Clean(delta[i].path), At(base, Clean(delta[i].path)))
        == Some(At(cur, Clean(delta[i].path)))
    ensures var p := Clean(delta[i].path);
            && Effect(git, Merge(recorded, delta), p, At(base, p)) == NewSlot(git, delta[i], At(base, p))
            && Effect(git, recorded + delta, p, At(base, p)) == NewSlot(git, delta[i], At(cur, p))
  {
    var p := Clean(delta[i].path);
    MergedRewrites(git, recorded, delta, i, At(base, p));
    MergedRewrites(git, recorded, delta, i, At(cur, p));
    EffectAppend(git, recorded, delta, p, At(base, p));
  }

  /** One step, exactly: if the record replayed the session so far, the delta applied to the session's tree, and no
      rewritten file is spelled in two ways, then the merged record replays the session again if and only if every
      entry over an already recorded key agrees on the original and the session's contents. */
  lemma {:induction false} MergeReplaysIff(git: PatchTool, root: seq<string>, base: Tree, cur: Tree,
                                           recorded: seq<FileChange>, delta: seq<FileChange>)
    requires Distinct(recorded) && Distinct(delta) && AllAccepted(recorded) && AllAccepted(delta)
    requires RewritesAlone(recorded, delta)
    requires Replays(git, root, base, recorded, cur)
    requires WriteAll(git, root, cur, delta).status == Fine
    ensures Replays(git, root, base, Merge(recorded, delta), WriteAll(git, root, cur, delta).tree)
            <==> Agrees(git, base, cur, recorded, delta)
  {
    MergeReplaysExactly(git, root, base, cur, recorded, delta);
    hide Merge;
    hide WriteAll;
    hide Clean;
    hide NewSlot;
    hide RewritesAlone;
    var merged := Merge(recorded, delta);
    forall i | 0 <= i < |delta| && delta[i].path in PathsOf(recorded)
      ensures var p := Clean(delta[i].path);
              && Effect(git, merged, p, At(base, p)) == NewSlot(git, delta[i], At(base, p))
              && Effect(git, recorded + delta, p, At(base, p)) == NewSlot(git, delta[i], At(cur, p))
    {
      RewrittenEffect(git, root, base, cur, recorded, delta, i);
    }
    forall p | Agrees(git, base, cur, recorded, delta)
      ensures Effect(git, merged, p, At(base, p)) == Effect(git, recorded + delta, p, At(base, p))
    {
      if i :| 0 <= i < |delta| && Clean(delta[i].path) == p && delta[i].path in PathsOf(recorded) {
      } else {
        MergedAddsOnly(git, recorded, delta, p, At(base, p));
      }
    }
  }

  // ---- where a rewritten file is spelled in two ways ----

  lemma {:induction false} SlotDefined(git: PatchTool, f: FileChange, slot: Option<string>)
    requires ModeOf(f) != Patch
    ensures NewSlot(git, f, slot).Some?
  {}

  lemma {:induction false} EffectLast(git: PatchTool, files: seq<FileChange>, p: string, slot: Option<string>)
    requires files != []
    ensures var n := |files| - 1; var before := Effect(git, files[..n], p, slot);
            Effect(git, files, p, slot) ==
            if before.None? || Clean(files[n].path) != p then before else NewSlot(git, files[n], before.value)
  {
    hide Clean;
    hide NewSlot;
  }

  lemma {:induction false} EffectDefined(git: PatchTool, files: seq<FileChange>, j: nat, p: string,
                                         slot: Option<string>)
    requires j <= |files| && Effect(git, files[..j], p, slot).Some?
    requires forall m :: j <= m < |files| && Clean(files[m].path) == p ==> ModeOf(files[m]) != Patch
    ensures Effect(git, files, p, slot).Some?
  {
    var n := |files| - 1;
    if j > n {
      assert files[..j] == files;
    } else {
      assert files[..n][..j] == files[..j];
      EffectDefined(git, files[..n], j, p, slot);
      EffectLast(git, files, p, slot);
      var before := Effect(git, files[..n], p, slot);
      if Clean(files[n].path) == p {
        SlotDefined(git, files[n], before.value);
      }
      hide Clean;
      hide Effect;
      hide NewSlot;
      hide ModeOf;
    }
  }

  lemma {:induction false} SlotFixed(git: PatchTool, f: FileChange, slot: Option<string>)
    requires ModeOf(f) in {Write, Delete}
    ensures NewSlot(git, f, slot).Some? && NewSlot(git, f, slot) == NewSlot(git, f, None)
  {}

  lemma {:induction false} NoneBehind(git: PatchTool, files: seq<FileChange>, k: nat, p: string, slot: Option<string>)
    requires k < |files| && forall m :: k < m < |files| ==> Clean(files[m].path) != p
    ensures Effect(git, files, p, slot) == Effect(git, files[..k + 1], p, slot)
  {
    var front, rest := files[..k + 1], files[k + 1..];
    hide Clean;
    hide Effect;
    assert files == front + rest;
    EffectAppend(git, front, rest, p, slot);
    if Effect(git, front, p, slot).Some? {
      EffectNone(git, rest, p, Effect(git, front, p, slot).value);
    }
  }

  lemma {:induction false} DefinedBefore(git: PatchTool, files: seq<FileChange>, j: nat, k: nat, p: string,
                                         slot: Option<string>)
    requires j <= k <= |files| && Effect(git, files[..j], p, slot).Some?
    requires forall m :: j <= m < |files| && Clean(files[m].path) == p ==> ModeOf(files[m]) != Patch
    ensures Effect(git, files[..k], p, slot).Some?
  {
    hide Clean;
    hide Effect;
    hide ModeOf;
    assert files[..k][..j] == files[..j];
    EffectDefined(git, files[..k], j, p, slot);
  }

  /** With no patch from `j` on, the last entry for the file decides. */
  lemma {:induction false} LastDecides(git: PatchTool, files: seq<FileChange>, j: nat, k: nat, p: string,
                                       slot: Option<string>)
    requires j <= k < |files| && Effect(git, files[..j], p, slot).Some?
    requires forall m :: j <= m < |files| && Clean(files[m].path) == p ==> ModeOf(files[m]) != Patch
    requires Clean(files[k].path) == p && ModeOf(files[k]) != Empty
    requires forall m :: k < m < |files| ==> Clean(files[m].path) != p
    ensures Effect(git, files, p, slot) == NewSlot(git, files[k], None)
  {
    NoneBehind(git, files, k, p, slot);
    DefinedBefore(git, files, j, k, p, slot);
    hide Clean;
    hide NewSlot;
    hide Effect;
    hide ModeOf;
    assert files[..k + 1][..k] == files[..k] && files[..k + 1][k] == files[k];
    EffectLast(git, files[..k + 1], p, slot);
    SlotFixed(git, files[k], Effect(git, files[..k], p, slot).value);
  }

  /** A rewrite that another spelling of the file overtakes: the entry at `j` is rewritten in place, but `k`, behind
      it, is the last one for the file. With no patch among them, the merged record replays the session if and only if
      the rewrite leaves of the file what the overtaking entry did. */
  lemma {:induction false} OvertakenRewriteIff(git: PatchTool, root: seq<string>, base: Tree, cur: Tree,
                                               recorded: seq<FileChange>, j: nat, k: nat, f: FileChange)
    requires Distinct(recorded) && AllAccepted(recorded) && PathRejection(f.path) == Accepted
    requires j < k < |recorded| && recorded[j].path == f.path && Clean(recorded[k].path) == Clean(f.path)
    requires forall m :: k < m < |recorded| ==> Clean(recorded[m].path) != Clean(f.path)
    requires forall m :: j <= m < |recorded| && Clean(recorded[m].path) == Clean(f.path) ==>
               ModeOf(recorded[m]) != Patch
    requires ModeOf(recorded[k]) != Empty && ModeOf(f) in {Write, Delete}
    requires Replays(git, root, base, recorded, cur)
    requires WriteAll(git, root, cur, [f]).status == Fine
    ensures Replays(git, root, base, Merge(recorded, [f]), WriteAll(git, root, cur, [f]).tree)
            <==> NewSlot(git, recorded[k], None) == NewSlot(git, f, None)
  {
    var p, merged := Clean(f.path), recorded[j := f];
    MergeOne(recorded, f);
    MergeReplaysExactly(git, root, base, cur, recorded, [f]);
    hide Merge;
    hide WriteAll;
    hide AllAccepted;
    hide PathRejection;
    OvertakenEffect(git, recorded, j, k, f, At(base, p));
    forall q | q != p ensures Effect(git, merged, q, At(base, q)) == Effect(git, recorded + [f], q, At(base, q)) {
      EffectUpdate(git, recorded, j, f, q, At(base, q));
      EffectSnoc(git, recorded, f, q, At(base, q));
    }
  }

  lemma {:induction false} RewrittenStillPlain(recorded: seq<FileChange>, j: nat, k: nat, f: FileChange, p: string)
    requires j < k < |recorded| && ModeOf(f) != Patch
    requires forall m :: k < m < |recorded| ==> Clean(recorded[m].path) != p
    requires forall m :: j <= m < |recorded| && Clean(recorded[m].path) == p ==> ModeOf(recorded[m]) != Patch
    ensures var merged := recorded[j := f];
            && (forall m :: k < m < |merged| ==> Clean(merged[m].path) != p)
            && (forall m :: j <= m < |merged| && Clean(merged[m].path) == p ==> ModeOf(merged[m]) != Patch)
  {
    hide Clean;
    hide ModeOf;
  }

  lemma {:induction false} OvertakenEffect(git: PatchTool, recorded: seq<FileChange>, j: nat, k: nat, f: FileChange,
                                           slot: Option<string>)
    requires j < k < |recorded| && Clean(recorded[k].path) == Clean(f.path)
    requires forall m :: k < m < |recorded| ==> Clean(recorded[m].path) != Clean(f.path)
    requires forall m :: j <= m < |recorded| && Clean(recorded[m].path) == Clean(f.path) ==>
               ModeOf(recorded[m]) != Patch
    requires ModeOf(recorded[k]) != Empty && ModeOf(f) in {Write, Delete}
    requires Effect(git, recorded, Clean(f.path), slot).Some?
    ensures Effect(git, recorded[j := f], Clean(f.path), slot) == NewSlot(git, recorded[k], None)
    ensures Effect(git, recorded + [f], Clean(f.path), slot) == NewSlot(git, f, None)
  {
    hide NewSlot;
    hide Clean;
    hide Effect;
    hide ModeOf;
    var p, merged := Clean(f.path), recorded[j := f];
    assert recorded == recorded[..j] + recorded[j..];
    EffectAppend(git, recorded[..j], recorded[j..], p, slot);
    assert merged[..j] == recorded[..j];
    RewrittenStillPlain(recorded, j, k, f, p);
    LastDecides(git, merged, j, k, p, slot);
    EffectSnoc(git, recorded, f, p, slot);
    SlotFixed(git, f, Effect(git, recorded, p, slot).value);
  }

  // ---- whole sessions ----

  datatype Session = Session(tree: Tree, record: seq<FileChange>)

  /** One `recordImplementationChangeSet` with a real session workspace. */
  function Step(git: PatchTool, root: seq<string>, limits: Limits, s: Session, produced: seq<FileChange>): Session {
    var kept := Normalize(produced).kept;
    if kept == [] then s
    else
      var r := Apply(git, root, s.tree, kept, limits);
      if r.status != Fine then s.(tree := r.tree) else Session(r.tree, Merge(s.record, kept))
  }

  /** The same without a session workspace. */
  function Noted(s: Session, produced: seq<FileChange>): Session {
    var kept := Normalize(produced).kept;
    if kept == [] then s else s.(record := Merge(s.record, kept))
  }

  /** Without a session workspace the tree stays, and the record holds for each path the first usable entry that was
      produced for it, else what it held. */
  lemma {:induction false} NotedMerges(s: Session, produced: seq<FileChange>, p: string)
    ensures var s' := Noted(s, produced);
            s'.tree == s.tree
            && LastFor(s'.record, p) ==
               if FirstUsable(produced, p).Some? then FirstUsable(produced, p) else LastFor(s.record, p)
  {
    NormalizeSpec(produced);
    MergeEntry(s.record, Normalize(produced).kept, p);
    hide LastFor;
    hide FirstUsable;
    hide Normalize;
    hide Merge;
    NoEntry(p);
  }

  lemma {:induction false} NoEntry(p: string)
    ensures LastFor([], p) == None
  {}

  function Run(git: PatchTool, root: seq<string>, limits: Limits, s: Session, runs: seq<seq<FileChange>>): Session {
    if runs == [] then s
    else Step(git, root, limits, Run(git, root, limits, s, runs[..|runs| - 1]), runs[|runs| - 1])
  }

  /** A step whose write phase fails has written nothing, and a recorded step patches no recorded key and rewrites no
      file that is spelled in two ways. A refused or empty step is always good. */
  predicate GoodStep(git: PatchTool, root: seq<string>, limits: Limits, s: Session, produced: seq<FileChange>) {
    var kept := Normalize(produced).kept;
    var r := Apply(git, root, s.tree, kept, limits);
    && (r.status == ApplyFailed ==> r.tree == s.tree)
    && (r.status == Fine ==> NoRepatch(s.record, kept) && RewritesAlone(s.record, kept))
  }

  predicate GoodRun(git: PatchTool, root: seq<string>, limits: Limits, s: Session, runs: seq<seq<FileChange>>) {
    runs == [] ||
    (GoodRun(git, root, limits, s, runs[..|runs| - 1])
     && GoodStep(git, root, limits, Run(git, root, limits, s, runs[..|runs| - 1]), runs[|runs| - 1]))
  }

  lemma {:induction false} KeptApplied(git: PatchTool, root: seq<string>, limits: Limits, t: Tree,
                                       produced: seq<FileChange>)
    requires Apply(git, root, t, Normalize(produced).kept, limits).status == Fine
    ensures var kept := Normalize(produced).kept;
            && Distinct(kept) && AllAccepted(kept) && NoEmptyEntry(kept)
            && WriteAll(git, root, t, kept) == Apply(git, root, t, kept, limits)
  {
    NormalizeSpec(produced);
  }

  lemma {:induction false} RunReplays(git: PatchTool, root: seq<string>, limits: Limits, base: Tree,
                                      runs: seq<seq<FileChange>>)
    requires GoodRun(git, root, limits, Session(base, []), runs)
    ensures var s := Run(git, root, limits, Session(base, []), runs);
            Distinct(s.record) && AllAccepted(s.record) && Replays(git, root, base, s.record, s.tree)
  {
    if runs == [] {
    } else {
      var n := |runs| - 1;
      var s := Run(git, root, limits, Session(base, []), runs[..n]);
      RunReplays(git, root, limits, base, runs[..n]);
      var kept := Normalize(runs[n]).kept;
      var r := Apply(git, root, s.tree, kept, limits);
      RefusalsLeaveTheTree(git, root, s.tree, kept, limits);
      if kept != [] && r.status == Fine {
        KeptApplied(git, root, limits, s.tree, runs[n]);
        NoRepatchAgrees(git, base, s.tree, s.record, kept);
        MergeReplaysIff(git, root, base, s.tree, s.record, kept);
        MergeAccepted(s.record, kept);
        MergeShape(s.record, kept);
      }
    }
  }

  /** The root of the workspace plays no part in what an acceptable set does. */
  lemma {:induction false} AnyRoot(git: PatchTool, root: seq<string>, other: seq<string>, t: Tree,
                                   files: seq<FileChange>)
    requires AllAccepted(files)
    ensures WriteAll(git, root, t, files) == WriteAll(git, other, t, files)
  {
    if files == [] {
    } else {
      AnyRoot(git, root, other, t, files[..|files| - 1]);
      AcceptedStaysWithinRoot(root, files[|files| - 1].path);
      AcceptedStaysWithinRoot(other, files[|files| - 1].path);
    }
  }

  /** Session replay. However long a good session was, and wherever the fresh clone lives, applying the
      recorded set once to the original tree gives the session's tree, provided the set is within the
      delivery's limits. The outcome is a success unless nothing had to change, which is reported as
      "no changes" over the same tree. */
  lemma {:induction false} SessionReplay(git: PatchTool, root: seq<string>, limits: Limits, base: Tree,
      runs: seq<seq<FileChange>>,
                      clone: seq<string>, delivery: Limits)
    requires GoodRun(git, root, limits, Session(base, []), runs)
    requires WithinLimits(Run(git, root, limits, Session(base, []), runs).record, delivery)
    ensures var s := Run(git, root, limits, Session(base, []), runs);
            var r := Apply(git, clone, base, s.record, delivery);
            && r.tree == s.tree
            && r.status in {Fine, NoChanges}
            && (r.status == NoChanges ==> s.tree == base)
  {
    var s := Run(git, root, limits, Session(base, []), runs);
    RunReplays(git, root, limits, base, runs);
    AnyRoot(git, root, clone, base, s.record);
    RefusalsLeaveTheTree(git, clone, base, s.record, delivery);
  }

  // ---- why a good session has to be good ----

  /** A patch tool that appends to an existing file and refuses an absent one. */
  const APPENDER: PatchTool :=
    (patch: string, slot: Option<string>) => if slot.Some? then Some(Some(slot.value + patch)) else None

  const NO_LIMITS := Limits(0, 0)

  function WriteFile(path: string, body: string): FileChange {
    FileChange(path, Some(body), "", false)
  }

  /** A path that normalising and cleaning leave alone and the checks accept. */
  predicate CleanPath(path: string) {
    path != "" && Trim(path) == path && Clean(path) == path && PathRejection(path) == Accepted
  }

  function PatchFile(path: string, patch: string): FileChange {
    FileChange(path, None, patch, false)
  }

  lemma {:induction false} WriteOnly(git: PatchTool, root: seq<string>, t: Tree, f: FileChange)
    ensures WriteAll(git, root, t, [f]) == WriteOne(git, root, Progress(t, [], [], Fine), f)
  {
    hide WriteOne;
    assert [f][..0] == [];
    assert WriteAll(git, root, t, []) == Progress(t, [], [], Fine);
  }

  lemma {:induction false} StepOne(git: PatchTool, root: seq<string>, s: Session, f: FileChange)
    requires Trim(f.path) == f.path && f.path != "" && ModeOf(f) != Empty
    requires PathRejection(f.path) == Accepted
    ensures var r := WriteOne(git, root, Progress(s.tree, [], [], Fine), f);
            && WriteAll(git, root, s.tree, [f]) == r
            && (r.status == Fine && r.applied != [] ==>
                  Step(git, root, NO_LIMITS, s, [f]) == Session(r.tree, Merge(s.record, [f])))
  {
    hide WriteOne;
    hide WriteAll;
    hide Normalize;
    hide Merge;
    hide PathRejection;
    hide TrimLeft;
    hide TrimRight;
    TrimSpec(f.path);
    NormalizeFixed([f]);
    WriteOnly(git, root, s.tree, f);
  }

  lemma {:induction false} RunTwo(git: PatchTool, root: seq<string>, s: Session, a: seq<FileChange>, b: seq<FileChange>)
    ensures Run(git, root, NO_LIMITS, s, [a, b]) == Step(git, root, NO_LIMITS, Step(git, root, NO_LIMITS, s, a), b)
  {
    assert [a, b][..1] == [a] && [a][..0] == [];
    assert Run(git, root, NO_LIMITS, s, []) == s;
    assert Run(git, root, NO_LIMITS, s, [a]) == Step(git, root, NO_LIMITS, s, a);
  }

  /** Patching a recorded path replaces its entry instead of composing with it. Whatever is written to
      a new file and then patched, both steps apply, but the recorded set does not apply to the
      original tree. */
  lemma {:induction false} RepatchBreaksReplay(root: seq<string>, path: string, body: string, patch: string)
    requires CleanPath(path) && patch != ""
    ensures var runs := [[WriteFile(path, body)], [PatchFile(path, patch)]];
            var s := Run(APPENDER, root, NO_LIMITS, Session(map[], []), runs);
            && s == Session(map[path := body + PatchText(patch)], [PatchFile(path, patch)])
            && WriteAll(APPENDER, root, map[], s.record).status == ApplyFailed
  {
    var w, p := WriteFile(path, body), PatchFile(path, patch);
    var s0, s1 := Session(map[], []), Session(map[path := body], [w]);
    AcceptedStaysWithinRoot(root, path);
    StepOne(APPENDER, root, s0, w);
    MergeIntoEmpty([w]);
    assert Step(APPENDER, root, NO_LIMITS, s0, [w]) == s1;
    PatchStep(root, path, body, patch);
    RunTwo(APPENDER, root, s0, [w], [p]);
    StepOne(APPENDER, root, s0, p);
  }

  lemma {:induction false} PatchStep(root: seq<string>, path: string, body: string, patch: string)
    requires CleanPath(path) && patch != ""
    ensures Step(APPENDER, root, NO_LIMITS, Session(map[path := body], [WriteFile(path, body)]),
                 [PatchFile(path, patch)])
            == Session(map[path := body + PatchText(patch)], [PatchFile(path, patch)])
  {
    hide Step;
    hide Normalize;
    hide Merge;
    hide WriteAll;
    hide WithinRoot;
    hide PathRejection;
    hide TrimLeft;
    hide TrimRight;
    var w, p := WriteFile(path, body), PatchFile(path, patch);
    AcceptedStaysWithinRoot(root, path);
    StepOne(APPENDER, root, Session(map[path := body], [w]), p);
    MergeOne([w], p);
    assert [w][0].path == p.path;
    assert Merge([w], [p]) == [p];
  }

  lemma {:induction false} OtherSpellingStep(root: seq<string>, path: string, other: string)
    requires other != path && other != "" && Trim(other) == other && Clean(other) == path
    requires PathRejection(other) == Accepted
    ensures Step(APPENDER, root, NO_LIMITS, Session(map[path := "2"], [WriteFile(other, "1"), WriteFile(path, "2")]),
                 [WriteFile(other, "3")])
            == Session(map[path := "3"], [WriteFile(other, "3"), WriteFile(path, "2")])
  {
    hide Step;
    hide Normalize;
    hide Merge;
    hide WriteAll;
    hide WithinRoot;
    hide PathRejection;
    hide TrimLeft;
    hide TrimRight;
    AcceptedStaysWithinRoot(root, other);
    var one, two, three := WriteFile(other, "1"), WriteFile(path, "2"), WriteFile(other, "3");
    StepOne(APPENDER, root, Session(map[path := "2"], [one, two]), three);
    MergeOne([one, two], three);
    assert [one, two][0].path == three.path;
    assert [one, two][0 := three] == [three, two];
  }

  lemma {:induction false} FirstWriteStep(root: seq<string>, path: string, other: string, body: string)
    requires other != "" && Trim(other) == other && Clean(other) == path && PathRejection(other) == Accepted
    ensures Step(APPENDER, root, NO_LIMITS, Session(map[], []), [WriteFile(other, body)])
            == Session(map[path := body], [WriteFile(other, body)])
  {
    hide Step;
    hide Normalize;
    hide Merge;
    hide WriteAll;
    hide WithinRoot;
    hide PathRejection;
    hide TrimLeft;
    hide TrimRight;
    AcceptedStaysWithinRoot(root, other);
    StepOne(APPENDER, root, Session(map[], []), WriteFile(other, body));
    MergeIntoEmpty([WriteFile(other, body)]);
  }

  lemma {:induction false} NextWriteStep(root: seq<string>, path: string, other: string)
    requires CleanPath(path) && other != path
    ensures Step(APPENDER, root, NO_LIMITS, Session(map[path := "1"], [WriteFile(other, "1")]), [WriteFile(path, "2")])
            == Session(map[path := "2"], [WriteFile(other, "1"), WriteFile(path, "2")])
  {
    hide Step;
    hide Normalize;
    hide Merge;
    hide WriteAll;
    hide WithinRoot;
    hide PathRejection;
    hide TrimLeft;
    hide TrimRight;
    var one, two := WriteFile(other, "1"), WriteFile(path, "2");
    AcceptedStaysWithinRoot(root, path);
    StepOne(APPENDER, root, Session(map[path := "1"], [one]), two);
    MergeOne([one], two);
    assert [one] + [two] == [one, two];
  }

  lemma {:induction false} SecondSpellingStep(root: seq<string>, path: string, other: string)
    requires CleanPath(path)
    requires other != path && other != "" && Trim(other) == other && Clean(other) == path
    requires PathRejection(other) == Accepted
    ensures Run(APPENDER, root, NO_LIMITS, Session(map[], []), [[WriteFile(other, "1")], [WriteFile(path, "2")]])
            == Session(map[path := "2"], [WriteFile(other, "1"), WriteFile(path, "2")])
  {
    FirstWriteStep(root, path, other, "1");
    NextWriteStep(root, path, other);
    RunTwo(APPENDER, root, Session(map[], []), [WriteFile(other, "1")], [WriteFile(path, "2")]);
    hide Run;
    hide Step;
    hide CleanPath;
  }

  /** Two spellings of one file are two keys of the record but one file of the tree. A new spelling is recorded behind
      the other and replays; rewriting the first one then leaves it in front, and its text is lost. */
  lemma {:induction false} SpellingsBreakReplay(root: seq<string>, path: string, other: string)
    requires CleanPath(path)
    requires other != path && other != "" && Trim(other) == other && Clean(other) == path
    requires PathRejection(other) == Accepted
    ensures var s := Run(APPENDER, root, NO_LIMITS, Session(map[], []),
                         [[WriteFile(other, "1")], [WriteFile(path, "2")]]);
            var s' := Step(APPENDER, root, NO_LIMITS, s, [WriteFile(other, "3")]);
            && Replays(APPENDER, root, map[], s.record, s.tree)
            && s'.tree == map[path := "3"]
            && Replays(APPENDER, root, map[], s'.record, map[path := "2"])
  {
    SecondSpellingStep(root, path, other);
    OtherSpellingStep(root, path, other);
    hide Run;
    hide Step;
    WriteTwo(root, WriteFile(other, "1"), WriteFile(path, "2"));
    WriteTwo(root, WriteFile(other, "3"), WriteFile(path, "2"));
  }

  lemma {:induction false} DotSpelling(name: string)
    requires PlainName(name)
    ensures Clean(name) == name && Clean("./" + name) == name
    ensures Walk(name) == Some([name]) && Walk("./" + name) == Some([name])
  {
    SplitOne(name, '/');
    SplitCons(".", name, '/');
    assert "." + ['/'] + name == "./" + name;
    hide Split;
    var one, two := [name], [".", name];
    assert two[1..] == one && one[1..] == [];
    assert CleanFrom([], one) == CleanFrom([name], []) == [name];
    assert CleanFrom([], two) == CleanFrom([], one);
    assert WalkFrom([], one) == WalkFrom([name], []) == Some([name]);
    assert WalkFrom([], two) == WalkFrom([], one);
  }

  /** Such spellings exist. */
  lemma {:induction false} TwoSpellings()
    ensures CleanPath("a") && Trim("./a") == "./a" && Clean("./a") == "a" && PathRejection("./a") == Accepted
  {
    hide Clean;
    hide Walk;
    hide TrimLeft;
    hide TrimRight;
    hide PathRejection;
    DotSpelling("a");
    assert "./" + "a" == "./a";
    TrimSpec("a");
    TrimSpec("./a");
    RejectionIsWhereTheWalkEnds("a");
    RejectionIsWhereTheWalkEnds("./a");
  }

  lemma {:induction false} WriteTwo(root: seq<string>, f: FileChange, g: FileChange)
    requires PathRejection(f.path) == PathRejection(g.path) == Accepted
    requires Clean(f.path) == Clean(g.path)
    requires ModeOf(f) == ModeOf(g) == Write
    ensures Replays(APPENDER, root, map[], [f, g], map[Clean(g.path) := g.contents.value])
  {
    AcceptedStaysWithinRoot(root, f.path);
    AcceptedStaysWithinRoot(root, g.path);
    assert [f, g][..1] == [f] && [f][..0] == [];
    assert WriteAll(APPENDER, root, map[], []) == Progress(map[], [], [], Fine);
    assert WriteAll(APPENDER, root, map[], [f]).tree == map[Clean(f.path) := f.contents.value];
  }

  /** A step that is not recorded does no harm to the replay exactly if it left the tree as it was. */
  lemma {:induction false} UnrecordedHarmlessIff(git: PatchTool, root: seq<string>, limits: Limits, base: Tree,
                                                 s: Session,
                                                 produced: seq<FileChange>)
    requires Replays(git, root, base, s.record, s.tree)
    requires Apply(git, root, s.tree, Normalize(produced).kept, limits).status != Fine
    ensures var s' := Step(git, root, limits, s, produced);
            Replays(git, root, base, s'.record, s'.tree) <==>
            Apply(git, root, s.tree, Normalize(produced).kept, limits).tree == s.tree
  {
    hide WriteAll;
    hide AllAccepted;
    hide Bytes;
    hide Normalize;
  }

  lemma {:induction false} NothingReplays(git: PatchTool, root: seq<string>, base: Tree, tree: Tree)
    ensures Replays(git, root, base, [], tree) <==> tree == base
  {}

  lemma {:induction false} FailedWrite(root: seq<string>, path: string, absent: string, body: string, patch: string)
    requires CleanPath(path) && CleanPath(absent) && path != absent && patch != ""
    ensures WriteAll(APPENDER, root, map[], [WriteFile(path, body), PatchFile(absent, patch)])
            == Progress(map[path := body], [path], [], ApplyFailed)
  {
    var f, g := WriteFile(path, body), PatchFile(absent, patch);
    AcceptedStaysWithinRoot(root, path);
    AcceptedStaysWithinRoot(root, absent);
    hide WithinRoot;
    hide Clean;
    hide PathRejection;
    hide TrimLeft;
    hide TrimRight;
    assert [f, g][..1] == [f] && [f][..0] == [];
    assert WriteAll(APPENDER, root, map[], []) == Progress(map[], [], [], Fine);
    assert WriteAll(APPENDER, root, map[], [f]) == Progress(map[path := body], [path], [], Fine);
  }

  lemma {:induction false} FailedWriteStep(root: seq<string>, path: string, absent: string, body: string, patch: string)
    requires CleanPath(path) && CleanPath(absent) && path != absent && patch != ""
    ensures Step(APPENDER, root, NO_LIMITS, Session(map[], []), [WriteFile(path, body), PatchFile(absent, patch)])
            == Session(map[path := body], [])
  {
    hide WriteAll;
    hide Normalize;
    hide Clean;
    hide PathRejection;
    hide TrimLeft;
    hide TrimRight;
    var f, g := WriteFile(path, body), PatchFile(absent, patch);
    FailedWrite(root, path, absent, body, patch);
    TrimSpec(path);
    TrimSpec(absent);
    NormalizeFixed([f, g]);
  }

  /** A step whose write phase fails keeps the entries before the failing one in the session's tree and
      records none of them, so that the record no longer replays the session. */
  lemma {:induction false} FailedWriteBreaksReplay(root: seq<string>, path: string, absent: string, body: string,
                                                   patch: string)
    requires CleanPath(path) && CleanPath(absent) && path != absent && patch != ""
    ensures var delta := [WriteFile(path, body), PatchFile(absent, patch)];
            var s := Step(APPENDER, root, NO_LIMITS, Session(map[], []), delta);
            s == Session(map[path := body], []) && !Replays(APPENDER, root, map[], s.record, s.tree)
  {
    FailedWriteStep(root, path, absent, body, patch);
    hide Step;
    hide Replays;
    hide CleanPath;
    NothingReplays(APPENDER, root, map[], map[path := body]);
    assert path in map[path := body];
  }

  // ---- the stored record and the session workspace ----

  datatype Header = Header(runId: string, source: string, model: string, message: string, recordedAt: nat)

  datatype ChangeSet = ChangeSet(header: Header, files: seq<FileChange>)

  const NO_CHANGE_SET := ChangeSet(Header("", "", "", "", 0), [])

  function MergedHeader(base: Header, delta: Header, now: nat): Header {
    Header(
      if delta.runId != "" then delta.runId else base.runId,
      if delta.source != "" then delta.source else base.source,
      if delta.model != "" then delta.model else base.model,
      if Trim(delta.message) != "" then delta.message else base.message,
      if delta.recordedAt != 0 then delta.recordedAt else now)
  }

  /** The header of a merged record: the delta's run, source and model where they are given, its message unless that is
      blank, else the base's; recorded when the delta was, or now. */
  lemma {:induction false} HeaderByFields(base: Header, delta: Header, now: nat)
    ensures var h := MergedHeader(base, delta, now);
            && (delta.runId != "" ==> h.runId == delta.runId) && (delta.runId == "" ==> h.runId == base.runId)
            && (delta.source != "" ==> h.source == delta.source) && (delta.source == "" ==> h.source == base.source)
            && (delta.model != "" ==> h.model == delta.model) && (delta.model == "" ==> h.model == base.model)
            && (Trim(delta.message) != "" ==> h.message == delta.message)
            && (Trim(delta.message) == "" ==> h.message == base.message)
            && (delta.recordedAt > 0 ==> h.recordedAt == delta.recordedAt)
            && (delta.recordedAt == 0 ==> h.recordedAt == now)
  {}

  method MergeChangeSet(base: ChangeSet, delta: ChangeSet, now: nat) returns (out: ChangeSet)
    ensures out == ChangeSet(MergedHeader(base.header, delta.header, now), Merge(base.files, delta.files))
  {
    var header := base.header;
    if delta.header.runId != "" {
      header := header.(runId := delta.header.runId);
    }
    if delta.header.source != "" {
      header := header.(source := delta.header.source);
    }
    if delta.header.model != "" {
      header := header.(model := delta.header.model);
    }
    if Trim(delta.header.message) != "" {
      header := header.(message := delta.header.message);
    }
    header := header.(recordedAt := delta.header.recordedAt);
    if header.recordedAt == 0 {
      header := header.(recordedAt := now);
    }
    var files := MergeFiles(base.files, delta.files);
    out := ChangeSet(header, files);
  }

  lemma {:induction false} CheckedOneMore(files: seq<FileChange>, i: nat)
    requires i < |files|
    ensures AllAccepted(files[..i + 1]) <==> AllAccepted(files[..i]) && PathRejection(files[i].path) == Accepted
    ensures AllAccepted(files) ==> AllAccepted(files[..i + 1])
    ensures Bytes(files[..i + 1]) == Bytes(files[..i]) + BytesOf(files[i])
  {
    assert files[..i + 1][..i] == files[..i];
    assert files[..i + 1] == files[..i] + [files[i]];
  }

  /** The validation loop: is every path accepted, and how many bytes does the set carry? */
  method CheckPaths(files: seq<FileChange>) returns (accepted: bool, total: nat)
    ensures accepted <==> AllAccepted(files)
    ensures accepted ==> total == Bytes(files)
  {
    accepted, total := true, 0;
    for i := 0 to |files|
      invariant accepted && AllAccepted(files[..i])
      invariant total == Bytes(files[..i])
    {
      CheckedOneMore(files, i);
      var verdict := PathRejection(files[i].path);
      if verdict != Accepted {
        accepted := false;
        return;
      }
      total := total + |files[i].patch|;
      if files[i].contents.Some? {
        total := total + |files[i].contents.value|;
      }
    }
    assert files[..|files|] == files;
  }

  lemma {:induction false} WriteOneAfter(git: PatchTool, root: seq<string>, t: Tree, applied: seq<string>,
      skipped: seq<string>, f: FileChange)
    ensures var one, r := WriteOne(git, root, Progress(t, [], [], Fine), f),
                            WriteOne(git, root, Progress(t, applied, skipped, Fine), f);
            r == Progress(one.tree, applied + one.applied, skipped + one.skipped, one.status)
  {}

  class Workspace {
    var tree: Tree
    var stored: Option<ChangeSet>

    constructor (t: Tree)
      ensures tree == t && stored == None
    {
      tree, stored := t, None;
    }

    /** The recorded set; a missing one reads as empty. */
    function Recorded(): ChangeSet
      reads this
    {
      if stored.Some? then stored.value else NO_CHANGE_SET
    }

    /** One round of the write loop: the report it adds, or why it failed. */
    method WriteEntry(git: PatchTool, root: seq<string>, f: FileChange)
        returns (applied: seq<string>, skipped: seq<string>, status: Status)
      modifies this`tree
      ensures Progress(tree, applied, skipped, status) ==
              WriteOne(git, root, Progress(old(tree), [], [], Fine), f)
    {
      applied, skipped, status := [], [], Fine;
      var rel := Clean(f.path);
      if !WithinRoot(root, JoinRoot(root, rel)) {
        status := UnsafePath;
        return;
      }
      match ModeOf(f) {
        case Delete =>
          if rel !in tree {
            skipped := [SkipNote(rel)];
          } else {
            tree := tree - {rel};
            applied := [rel];
          }
        case Write =>
          tree := tree[rel := f.contents.value];
          applied := [rel];
        case Patch =>
          var slot := git(PatchText(f.patch), At(tree, rel));
          if slot.None? {
            status := ApplyFailed;
          } else {
            tree := Put(tree, rel, slot.value);
            applied := [rel];
          }
        case Empty =>
      }
    }

    /** The write loop. */
    method WriteFiles(git: PatchTool, root: seq<string>, files: seq<FileChange>)
        returns (applied: seq<string>, skipped: seq<string>, status: Status)
      modifies this`tree
      ensures Progress(tree, applied, skipped, status) == WriteAll(git, root, old(tree), files)
    {
      applied, skipped, status := [], [], Fine;
      for i := 0 to |files|
        invariant status == Fine
        invariant Progress(tree, applied, skipped, Fine) == WriteAll(git, root, old(tree), files[..i])
      {
        assert files[..i + 1][..i] == files[..i];
        WriteOneAfter(git, root, tree, applied, skipped, files[i]);
        var newApplied, newSkipped, outcome := WriteEntry(git, root, files[i]);
        applied, skipped, status := applied + newApplied, skipped + newSkipped, outcome;
        if status != Fine {
          StoppedHere(git, root, old(tree), files, i);
          return;
        }
      }
      assert files[..|files|] == files;
    }

    method ApplyChangeSet(git: PatchTool, root: seq<string>, files: seq<FileChange>, limits: Limits)
        returns (applied: seq<string>, skipped: seq<string>, status: Status)
      modifies this`tree
      ensures Progress(tree, applied, skipped, status) == Apply(git, root, old(tree), files, limits)
    {
      applied, skipped := [], [];
      if |files| == 0 {
        return applied, skipped, NoChanges;
      }
      if limits.maxFiles > 0 && |files| > limits.maxFiles {
        return applied, skipped, TooLarge;
      }
      var accepted, total := CheckPaths(files);
      if !accepted {
        return applied, skipped, UnsafePath;
      }
      if limits.maxBytes > 0 && total > limits.maxBytes {
        return applied, skipped, TooLarge;
      }
      applied, skipped, status := WriteFiles(git, root, files);
      if status == Fine && |applied| == 0 {
        status := NoChanges;
      }
    }

    /** `PutChangeSetMerged`: read, merge, write. */
    method PutChangeSetMerged(delta: ChangeSet, now: nat)
      modifies this`stored
      ensures Recorded() ==
              ChangeSet(MergedHeader(old(Recorded()).header, delta.header, now),
                        Merge(old(Recorded()).files, delta.files))
    {
      var merged := MergeChangeSet(Recorded(), delta, now);
      stored := Some(merged);
    }

    method ClearChangeSet()
      modifies this`stored
      ensures Recorded() == ChangeSet(Header("", "", "", "", 0), [])
    {
      stored := None;
    }

    /** `recordImplementationChangeSet`. With a session workspace, this is the step the replay theorem is about;
        without one, or with a stub, the changes are recorded without being applied anywhere. */
    method RecordImplementation(git: PatchTool, root: seq<string>, limits: Limits, hasWorkspace: bool,
                                header: Header, produced: seq<FileChange>, now: nat)
      modifies this
      ensures var s := Session(old(tree), old(Recorded().files));
              Session(tree, Recorded().files) ==
              if hasWorkspace then Step(git, root, limits, s, produced) else Noted(s, produced)
    {
      var kept, dropped := NormalizeChangeSet(produced);
      if |kept| == 0 {
        return;
      }
      if hasWorkspace {
        var applied, skipped, status := ApplyChangeSet(git, root, kept, limits);
        if status != Fine {
          return;
        }
      }
      PutChangeSetMerged(ChangeSet(header, kept), now);
    }
  }

  lemma {:induction false} StoppedHere(git: PatchTool, root: seq<string>, t: Tree, files: seq<FileChange>, i: nat)
    requires i < |files|
    requires WriteAll(git, root, t, files[..i + 1]).status != Fine
    ensures WriteAll(git, root, t, files) == WriteAll(git, root, t, files[..i + 1])
  {
    var n := |files| - 1;
    if i < n {
      assert files[..n][..i + 1] == files[..i + 1];
      StoppedHere(git, root, t, files[..n], i);
    } else {
      assert files[..i + 1] == files;
    }
  }
}
