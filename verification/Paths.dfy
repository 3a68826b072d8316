/** The lexical path rules of a change set: what `filepath.Clean` makes of a relative path, which
    paths are refused, and why a path that is not refused cannot leave the workspace. */
module Paths {
  import opened Options
  import opened Text

  // ---- filepath.Clean on a relative path: a stack machine over segments ----

  function Push(stack: seq<string>, seg: string): seq<string> {
    if seg == "" || seg == "." then stack
    else if seg == ".." then
      if stack != [] && stack[|stack| - 1] != ".." then stack[..|stack| - 1] else stack + [".."]
    else stack + [seg]
  }

  function CleanFrom(stack: seq<string>, segs: seq<string>): seq<string>
    decreases segs
  {
    if segs == [] then stack else CleanFrom(Push(stack, segs[0]), segs[1..])
  }

  function CleanSegments(rel: string): seq<string> {
    CleanFrom([], Split(rel, '/'))
  }

  function Clean(rel: string): string {
    if CleanSegments(rel) == [] then "." else Join(CleanSegments(rel), '/')
  }

  // ---- pathRejection ----

  datatype Rejection =
    | Accepted
    | BlankPath
    | NullByte
    | Backslash
    | Absolute
    | WorkspaceRoot
    | Escapes
    | GitMetadata
    | WorkflowFile

  function PathRejection(path: string): Rejection {
    var rel := Trim(path);
    if rel == "" then BlankPath
    else if '\0' in rel then NullByte
    else if '\\' in rel then Backslash
    else if "/" <= rel then Absolute
    else
      var clean := Clean(rel);
      if clean == "." || clean == ".." then WorkspaceRoot
      else if ".." in Split(clean, '/') then Escapes
      else if clean == ".git" || ".git/" <= clean then GitMetadata
      else if ".github/workflows/" <= clean then WorkflowFile
      else Accepted
  }

  // ---- the workspace as a tree of directories, walked one segment at a time ----

  /** Follows the segments from `at` (a position below the start); None once that leaves the start. */
  function WalkFrom(at: seq<string>, segs: seq<string>): Option<seq<string>>
    decreases segs
  {
    if segs == [] then Some(at)
    else if segs[0] == "" || segs[0] == "." then WalkFrom(at, segs[1..])
    else if segs[0] == ".." then if at == [] then None else WalkFrom(at[..|at| - 1], segs[1..])
    else WalkFrom(at + [segs[0]], segs[1..])
  }

  function Walk(rel: string): Option<seq<string>> {
    WalkFrom([], Split(rel, '/'))
  }

  predicate PlainName(seg: string) {
    seg != "" && seg != "." && seg != ".." && '/' !in seg
  }

  predicate PlainNames(segs: seq<string>) {
    forall i :: 0 <= i < |segs| ==> PlainName(segs[i])
  }

  predicate SlashFree(segs: seq<string>) {
    forall i :: 0 <= i < |segs| ==> '/' !in segs[i]
  }

  lemma {:induction false} SplitSlashFree(s: string)
    ensures SlashFree(Split(s, '/'))
  {
    SplitParts(s, '/');
    forall i | 0 <= i < |Split(s, '/')| ensures '/' !in Split(s, '/')[i] {
      assert Split(s, '/')[i] in Split(s, '/');
    }
  }

  lemma {:induction false} ClimbedStaysClimbed(stack: seq<string>, segs: seq<string>)
    requires stack != [] && stack[0] == ".."
    ensures CleanFrom(stack, segs) != [] && CleanFrom(stack, segs)[0] == ".."
    decreases segs
  {
    if segs == [] {
    } else {
      ClimbedStaysClimbed(Push(stack, segs[0]), segs[1..]);
    }
  }

  /** The stack machine keeps exactly the walk's position, or a leading `..` once the walk has left. */
  lemma {:induction false} CleanIsWalk(at: seq<string>, segs: seq<string>)
    requires PlainNames(at) && SlashFree(segs)
    ensures WalkFrom(at, segs).Some? ==>
              CleanFrom(at, segs) == WalkFrom(at, segs).value && PlainNames(CleanFrom(at, segs))
    ensures WalkFrom(at, segs).None? ==> CleanFrom(at, segs) != [] && CleanFrom(at, segs)[0] == ".."
    decreases segs
  {
    if segs == [] {
    } else {
      if segs[0] == ".." && at == [] {
        assert Push(at, segs[0]) == [".."];
        ClimbedStaysClimbed([".."], segs[1..]);
      } else {
        CleanIsWalk(Push(at, segs[0]), segs[1..]);
      }
    }
  }

  // ---- cleaning is idempotent ----

  /** Names only, after at most a leading run of `..`. */
  predicate Canonical(segs: seq<string>) {
    && (forall i :: 0 <= i < |segs| ==> PlainName(segs[i]) || segs[i] == "..")
    && (forall i, j :: 0 <= i < j < |segs| && segs[j] == ".." ==> segs[i] == "..")
  }

  lemma {:induction false} CleanCanonical(stack: seq<string>, segs: seq<string>)
    requires Canonical(stack) && SlashFree(segs)
    ensures Canonical(CleanFrom(stack, segs))
    decreases segs
  {
    if segs == [] {
    } else {
      CleanCanonical(Push(stack, segs[0]), segs[1..]);
    }
  }

  lemma {:induction false} CleanKeepsCanonical(stack: seq<string>, segs: seq<string>)
    requires Canonical(stack + segs)
    ensures CleanFrom(stack, segs) == stack + segs
    decreases segs
  {
    if segs == [] {
      assert stack + segs == stack;
    } else {
      assert (stack + segs)[|stack|] == segs[0];
      assert stack != [] ==> (stack + segs)[|stack| - 1] == stack[|stack| - 1];
      assert (stack + [segs[0]]) + segs[1..] == stack + segs;
      CleanKeepsCanonical(stack + [segs[0]], segs[1..]);
    }
  }

  lemma {:induction false} SplitClean(rel: string)
    requires CleanSegments(rel) != []
    ensures Split(Clean(rel), '/') == CleanSegments(rel)
    ensures Canonical(CleanSegments(rel))
  {
    SplitSlashFree(rel);
    CleanCanonical([], Split(rel, '/'));
    SplitJoin(CleanSegments(rel), '/');
  }

  /** A cleaned path is its own cleaning. */
  lemma {:induction false} CleanIdempotent(rel: string)
    ensures Clean(Clean(rel)) == Clean(rel)
  {
    if CleanSegments(rel) == [] {
      SplitOne(".", '/');
      assert CleanFrom([], ["."]) == [];
    } else {
      SplitClean(rel);
      assert [] + CleanSegments(rel) == CleanSegments(rel);
      CleanKeepsCanonical([], CleanSegments(rel));
    }
  }

  // ---- what a rejection means ----

  lemma {:induction false} SplitJoinCanonical(segs: seq<string>)
    requires segs != [] && Canonical(segs)
    ensures Split(Join(segs, '/'), '/') == segs
  {
    forall p | p in segs ensures '/' !in p {
      var i :| 0 <= i < |segs| && segs[i] == p;
      assert PlainName(segs[i]) || segs[i] == "..";
    }
    SplitJoin(segs, '/');
  }

  lemma {:induction false} JoinHead(segs: seq<string>, head: string)
    requires segs != [] && Canonical(segs) && '/' !in head
    ensures head + "/" <= Join(segs, '/') <==> |segs| >= 2 && segs[0] == head
    ensures |segs| >= 2 && segs[0] == head ==> Join(segs, '/') == head + "/" + Join(segs[1..], '/')
  {
    var j := Join(segs, '/');
    if head + "/" <= j {
      var rest := j[|head| + 1..];
      assert j == head + ['/'] + rest;
      SplitCons(head, rest, '/');
      SplitJoinCanonical(segs);
    }
  }

  lemma {:induction false} SplitTwo(first: string, second: string, rest: string)
    requires '/' !in first && '/' !in second
    ensures Split(first + "/" + second + "/" + rest, '/') == [first, second] + Split(rest, '/')
  {
    hide Split;
    var tail := second + ['/'] + rest;
    SplitCons(second, rest, '/');
    SplitCons(first, tail, '/');
    assert first + "/" + second + "/" + rest == first + ['/'] + tail;
    assert [first] + ([second] + Split(rest, '/')) == [first, second] + Split(rest, '/');
  }

  lemma {:induction false} JoinTwo(segs: seq<string>)
    requires |segs| >= 3
    ensures Join(segs, '/') == segs[0] + "/" + segs[1] + "/" + Join(segs[2..], '/')
  {
    var tail := segs[1..];
    assert tail[1..] == segs[2..];
    assert Join(tail, '/') == segs[1] + "/" + Join(segs[2..], '/');
  }

  lemma {:induction false} JoinHeadTwo(segs: seq<string>, first: string, second: string)
    requires segs != [] && Canonical(segs) && '/' !in first && '/' !in second
    ensures (first + "/" + second + "/" <= Join(segs, '/'))
            <==> (|segs| >= 3 && segs[0] == first && segs[1] == second)
  {
    var j, two := Join(segs, '/'), first + "/" + second + "/";
    if two <= j {
      SplitTwo(first, second, j[|two|..]);
      assert j == two + j[|two|..];
      SplitJoinCanonical(segs);
    } else if |segs| >= 3 {
      JoinTwo(segs);
    }
  }

  predicate WellSpelled(rel: string) {
    rel != "" && '\0' !in rel && '\\' !in rel && !("/" <= rel)
  }

  /** A join of canonical segments is a given name only when it is that single segment. */
  lemma {:induction false} JoinIsName(segs: seq<string>, name: string)
    requires segs != [] && Canonical(segs) && '/' !in name
    ensures Join(segs, '/') == name <==> segs == [name]
  {
    SplitJoinCanonical(segs);
    if Join(segs, '/') == name {
      SplitOne(name, '/');
    }
  }

  predicate InGitMetadata(at: seq<string>) {
    at != [] && at[0] == ".git"
  }

  predicate BelowWorkflows(at: seq<string>) {
    |at| >= 3 && at[0] == ".github" && at[1] == "workflows"
  }

  lemma {:induction false} CleanOfWalk(rel: string)
    ensures Walk(rel).Some? ==> PlainNames(Walk(rel).value) && CleanSegments(rel) == Walk(rel).value
    ensures Walk(rel).None? ==> CleanSegments(rel) != [] && CleanSegments(rel)[0] == ".."
    ensures CleanSegments(rel) != [] ==>
              Canonical(CleanSegments(rel)) && Split(Clean(rel), '/') == CleanSegments(rel)
    ensures Clean(rel) == "." <==> CleanSegments(rel) == []
    ensures Clean(rel) == ".." <==> CleanSegments(rel) == [".."]
  {
    SplitSlashFree(rel);
    CleanIsWalk([], Split(rel, '/'));
    if CleanSegments(rel) != [] {
      SplitClean(rel);
      JoinIsName(CleanSegments(rel), ".");
      JoinIsName(CleanSegments(rel), "..");
    }
  }

  lemma {:induction false} CleanRefusals(at: seq<string>)
    requires at != [] && PlainNames(at)
    ensures Join(at, '/') == ".git" || ".git/" <= Join(at, '/') <==> InGitMetadata(at)
    ensures ".github/workflows/" <= Join(at, '/') <==> BelowWorkflows(at)
    ensures ".." !in at
  {
    JoinIsName(at, ".git");
    JoinHead(at, ".git");
    assert ".git" + "/" == ".git/";
    JoinHeadTwo(at, ".github", "workflows");
    assert ".github" + "/" + "workflows" + "/" == ".github/workflows/";
  }

  // ---- where a path ends that climbs above the start ----

  /** A place in the tree of directories: how far above the start its branch leaves, and the names from there. */
  datatype Place = Place(above: nat, names: seq<string>)

  function RoamStep(p: Place, seg: string): Place {
    if seg == "" || seg == "." then p
    else if seg != ".." then Place(p.above, p.names + [seg])
    else if p.names == [] then Place(p.above + 1, [])
    else Place(p.above, p.names[..|p.names| - 1])
  }

  function RoamFrom(p: Place, segs: seq<string>): Place
    decreases segs
  {
    if segs == [] then p else RoamFrom(RoamStep(p, segs[0]), segs[1..])
  }

  function Roam(rel: string): Place {
    RoamFrom(Place(0, []), Split(rel, '/'))
  }

  function Ups(n: nat): seq<string> {
    seq(n, _ => "..")
  }

  lemma {:induction false} PushIsStep(p: Place, seg: string)
    requires PlainNames(p.names) && '/' !in seg
    ensures var q := RoamStep(p, seg);
            PlainNames(q.names) && Push(Ups(p.above) + p.names, seg) == Ups(q.above) + q.names
  {
    var stack, m := Ups(p.above) + p.names, |p.names|;
    if seg == "" || seg == "." {
    } else if seg != ".." {
      assert stack + [seg] == Ups(p.above) + (p.names + [seg]);
    } else if p.names == [] {
      assert stack + [".."] == Ups(p.above + 1) + [];
    } else {
      assert stack[|stack| - 1] == p.names[m - 1];
      assert stack[..|stack| - 1] == Ups(p.above) + p.names[..m - 1];
    }
  }

  /** The cleaned segments spell out the place where the path ends: so many `..`, then the names. */
  lemma {:induction false} CleanIsRoam(p: Place, segs: seq<string>)
    requires PlainNames(p.names) && SlashFree(segs)
    ensures var q := RoamFrom(p, segs);
            PlainNames(q.names) && CleanFrom(Ups(p.above) + p.names, segs) == Ups(q.above) + q.names
    decreases segs
  {
    if segs == [] {
    } else {
      PushIsStep(p, segs[0]);
      hide Push;
      hide RoamStep;
      hide Ups;
      hide PlainNames;
      CleanIsRoam(RoamStep(p, segs[0]), segs[1..]);
    }
  }

  lemma {:induction false} RoamStaysAbove(p: Place, segs: seq<string>)
    ensures RoamFrom(p, segs).above >= p.above
    decreases segs
  {
    if segs == [] {
    } else {
      RoamStaysAbove(RoamStep(p, segs[0]), segs[1..]);
    }
  }

  /** Walking leaves the start exactly if the place is not below it. */
  lemma {:induction false} WalkIsRoam(at: seq<string>, segs: seq<string>)
    ensures var q := RoamFrom(Place(0, at), segs); WalkFrom(at, segs) == if q.above > 0 then None else Some(q.names)
    decreases segs
  {
    if segs == [] {
    } else {
      var next := RoamStep(Place(0, at), segs[0]);
      if next.above > 0 {
        RoamStaysAbove(next, segs[1..]);
      } else {
        WalkIsRoam(next.names, segs[1..]);
      }
    }
  }

  lemma {:induction false} NamesNotUp(names: seq<string>)
    requires PlainNames(names)
    ensures ".." !in names && names != [".."]
  {
    assert ".." in [".."];
  }

  lemma {:induction false} CleanOfRoam(rel: string)
    ensures CleanSegments(rel) == Ups(Roam(rel).above) + Roam(rel).names
    ensures CleanSegments(rel) == [".."] <==> Roam(rel) == Place(1, [])
    ensures Walk(rel) == if Roam(rel).above > 0 then None else Some(Roam(rel).names)
  {
    SplitSlashFree(rel);
    CleanIsRoam(Place(0, []), Split(rel, '/'));
    WalkIsRoam([], Split(rel, '/'));
    assert Ups(0) + [] == [];
    var q := Roam(rel);
    assert Ups(1) + [] == [".."];
    NamesNotUp(q.names);
    assert q.above == 0 ==> Ups(q.above) + q.names == q.names;
    assert |Ups(q.above) + q.names| == q.above + |q.names|;
  }

  /** A path is refused for its spelling exactly if, blanks around it aside, it is blank, holds a null byte or a
      backslash, or starts with a slash; the first of these that applies is the verdict. */
  lemma {:induction false} SpellingRefused(path: string)
    ensures var rel, verdict := Trim(path), PathRejection(path);
            && (verdict == BlankPath <==> rel == "")
            && (verdict == NullByte <==> '\0' in rel)
            && (verdict == Backslash <==> '\\' in rel && '\0' !in rel)
            && (verdict == Absolute <==> rel != "" && rel[0] == '/' && '\0' !in rel && '\\' !in rel)
  {
    hide Trim;
    hide Clean;
    var rel := Trim(path);
    assert rel != "" ==> ("/" <= rel <==> rel[0] == '/');
  }

  /** The verdict, by the cleaned segments. */
  function VerdictOn(segs: seq<string>): Rejection {
    if segs == [] || segs == [".."] then WorkspaceRoot
    else if ".." in segs then Escapes
    else if InGitMetadata(segs) then GitMetadata
    else if BelowWorkflows(segs) then WorkflowFile
    else Accepted
  }

  lemma {:induction false} PathVerdict(path: string)
    requires WellSpelled(Trim(path))
    ensures PathRejection(path) == VerdictOn(CleanSegments(Trim(path)))
  {
    hide Trim;
    hide Walk;
    hide CleanSegments;
    hide Split;
    hide InGitMetadata;
    hide BelowWorkflows;
    var rel := Trim(path);
    CleanOfWalk(rel);
    if CleanSegments(rel) != [] && ".." !in CleanSegments(rel) {
      NamesWithoutUp(CleanSegments(rel));
      CleanRefusals(CleanSegments(rel));
    }
  }

  lemma {:induction false} NamesWithoutUp(segs: seq<string>)
    requires Canonical(segs) && ".." !in segs
    ensures PlainNames(segs)
  {}

  /** For every path that is spelled acceptably, the verdict is decided by where walking it ends: above the start, at
      the start, in the repository's metadata, below the workflow directory, or at an ordinary place, and only in the
      last case is the path accepted. Among the paths that leave the start, those ending exactly one directory above it
      are refused as the root, and all others as escaping. */
  lemma {:induction false} RejectionIsWhereTheWalkEnds(path: string)
    requires WellSpelled(Trim(path))
    ensures var walk, verdict := Walk(Trim(path)), PathRejection(path);
            && (walk.None? <==> Roam(Trim(path)).above > 0)
            && (verdict == Escapes <==> walk.None? && Roam(Trim(path)) != Place(1, []))
            && (verdict == WorkspaceRoot <==> walk == Some([]) || Roam(Trim(path)) == Place(1, []))
            && (verdict == GitMetadata <==> walk.Some? && InGitMetadata(walk.value))
            && (verdict == WorkflowFile <==> walk.Some? && BelowWorkflows(walk.value))
            && (verdict == Accepted <==>
                walk.Some? && walk.value != [] && !InGitMetadata(walk.value) && !BelowWorkflows(walk.value))
  {
    hide Trim;
    hide Walk;
    hide Roam;
    hide CleanSegments;
    hide PathRejection;
    hide Trim;
    hide Walk;
    hide Roam;
    hide CleanSegments;
    hide WellSpelled;
    var rel := Trim(path);
    CleanOfWalk(rel);
    CleanOfRoam(rel);
    PathVerdict(path);
    if Walk(rel).Some? {
      NamesNotUp(Walk(rel).value);
    }
  }

  lemma {:induction false} RoamTwoUp(name: string)
    requires PlainName(name)
    ensures RoamFrom(Place(0, []), [name, "..", ".."]) == Place(1, [])
  {
    assert [name, "..", ".."][1..] == ["..", ".."] && ["..", ".."][1..] == [".."] && [".."][1..] == [];
    assert [name][..0] == [] && [] + [name] == [name];
    calc {
      RoamFrom(Place(0, []), [name, "..", ".."]);
      RoamFrom(Place(0, [name]), ["..", ".."]);
      RoamFrom(Place(0, []), [".."]);
      RoamFrom(Place(1, []), []);
      Place(1, []);
    }
  }

  /** For any name, going into it and two up is refused as the root, although the walk leaves the start. */
  lemma {:induction false} ClimbReadsAsRoot(name: string)
    requires PlainName(name) && WellSpelled(name + "/../..") && Trim(name + "/../..") == name + "/../.."
    ensures PathRejection(name + "/../..") == WorkspaceRoot && Walk(name + "/../..").None?
  {
    var rel := name + "/../..";
    SplitTwo(name, "..", "..");
    SplitOne("..", '/');
    assert "/" + ".." + "/" + ".." == "/../..";
    assert name + "/" + ".." + "/" + ".." == name + ("/" + ".." + "/" + "..");
    assert Split(rel, '/') == [name, "..", ".."];
    RoamTwoUp(name);
    RejectionIsWhereTheWalkEnds(rel);
  }

  /** An accepted path cleans to the names the walk passes, joined: never empty, never with an empty,
      `.` or `..` segment. */
  lemma {:induction false} AcceptedCleansToNames(path: string)
    requires PathRejection(path) == Accepted
    ensures CleanSegments(Trim(path)) != [] && PlainNames(CleanSegments(Trim(path)))
    ensures Split(Clean(Trim(path)), '/') == CleanSegments(Trim(path))
  {
    RejectionIsWhereTheWalkEnds(path);
    CleanOfWalk(Trim(path));
  }

  // ---- withinRoot ----

  /** `filepath.Join(root, rel)` for an absolute root given by its segments: `..` stops at the top. */
  function JoinFrom(stack: seq<string>, segs: seq<string>): seq<string>
    decreases segs
  {
    if segs == [] then stack
    else if segs[0] == "" || segs[0] == "." then JoinFrom(stack, segs[1..])
    else if segs[0] == ".." then
      JoinFrom(if stack == [] then [] else stack[..|stack| - 1], segs[1..])
    else JoinFrom(stack + [segs[0]], segs[1..])
  }

  function JoinRoot(root: seq<string>, rel: string): seq<string> {
    JoinFrom(root, Split(rel, '/'))
  }

  /** `filepath.Rel` between two absolute paths given by their segments. */
  function RelativeTo(base: seq<string>, target: seq<string>): seq<string> {
    if base != [] && target != [] && base[0] == target[0] then RelativeTo(base[1..], target[1..])
    else seq(|base|, _ => "..") + target
  }

  predicate WithinRoot(root: seq<string>, abs: seq<string>) {
    var rel := RelativeTo(root, abs);
    rel != [] && rel[0] != ".."
  }

  lemma {:induction false} JoinFromNames(stack: seq<string>, segs: seq<string>)
    requires PlainNames(segs)
    ensures JoinFrom(stack, segs) == stack + segs
    decreases segs
  {
    if segs == [] {
      assert stack + segs == stack;
    } else {
      JoinFromNames(stack + [segs[0]], segs[1..]);
      assert stack + [segs[0]] + segs[1..] == stack + segs;
    }
  }

  lemma {:induction false} RelativeBelow(root: seq<string>, below: seq<string>)
    ensures RelativeTo(root, root + below) == below
  {
    if root == [] {
      assert root + below == below;
      assert seq(0, _ => "..") + below == below;
    } else {
      RelativeBelow(root[1..], below);
      assert (root + below)[1..] == root[1..] + below;
    }
  }

  /** The second check holds exactly for what lies strictly below the root, by a name other than `..`. */
  lemma {:induction false} WithinRootIff(root: seq<string>, abs: seq<string>)
    ensures WithinRoot(root, abs) <==> root <= abs && |abs| > |root| && abs[|root|] != ".."
  {
    if !(root <= abs) {
      RelativeApart(root, abs);
    } else {
      RelativeBelow(root, abs[|root|..]);
      assert root + abs[|root|..] == abs;
    }
  }

  lemma {:induction false} RelativeApart(base: seq<string>, target: seq<string>)
    requires !(base <= target)
    ensures RelativeTo(base, target) != [] && RelativeTo(base, target)[0] == ".."
  {
    if target != [] && base[0] == target[0] {
      assert base == [base[0]] + base[1..] && target == [target[0]] + target[1..];
      RelativeApart(base[1..], target[1..]);
    }
  }

  /** Joining a path to a root gives the place where it ends from there; above the top it stays at the top. */
  lemma {:induction false} JoinIsRoam(root: seq<string>, p: Place, segs: seq<string>)
    ensures var q := RoamFrom(p, segs);
            JoinFrom(Climbed(root, p.above) + p.names, segs) == Climbed(root, q.above) + q.names
    decreases segs
  {
    if segs == [] {
    } else {
      var stack, next := Climbed(root, p.above) + p.names, RoamStep(p, segs[0]);
      JoinIsRoam(root, next, segs[1..]);
      if StaysPut(segs[0]) {
      } else if segs[0] != ".." {
        assert stack + [segs[0]] == Climbed(root, next.above) + next.names;
      } else if p.names == [] {
        assert stack == Climbed(root, p.above);
        assert (if stack == [] then [] else stack[..|stack| - 1]) == Climbed(root, next.above) + [];
      } else {
        assert stack[..|stack| - 1] == Climbed(root, next.above) + next.names;
      }
    }
  }

  function Climbed(root: seq<string>, above: nat): seq<string> {
    if above <= |root| then root[..|root| - above] else []
  }

  // ---- surrounding blanks ----
  // The verdict is about the trimmed path, but the write uses the path as given. Blanks around a
  // path only turn its first or last segment into an ordinary name, which never climbs.

  /** A directory put under the start moves the place where a walk ends that stays inside. */
  lemma {:induction false} WalkUnder(base: string, at: seq<string>, segs: seq<string>)
    requires WalkFrom(at, segs).Some?
    ensures WalkFrom([base] + at, segs) == Some([base] + WalkFrom(at, segs).value)
    decreases segs
  {
    if segs == [] {
    } else {
      if StaysPut(segs[0]) {
        WalkUnder(base, at, segs[1..]);
      } else if segs[0] == ".." {
        assert ([base] + at)[..|at|] == [base] + at[..|at| - 1];
        WalkUnder(base, at[..|at| - 1], segs[1..]);
      } else {
        assert ([base] + at) + [segs[0]] == [base] + (at + [segs[0]]);
        WalkUnder(base, at + [segs[0]], segs[1..]);
      }
    }
  }

  /** Renaming the first directory renames it in the place where the walk ends, unless the walk has left it. */
  lemma {:induction false} WalkRenamed(name: string, other: string, at: seq<string>, segs: seq<string>)
    requires WalkFrom([name] + at, segs).Some?
    ensures var place, renamed := WalkFrom([name] + at, segs).value, WalkFrom([other] + at, segs);
            renamed == Some(place) || (place != [] && renamed == Some([other] + place[1..]))
    decreases segs
  {
    if segs == [] {
    } else {
      if StaysPut(segs[0]) {
        WalkRenamed(name, other, at, segs[1..]);
      } else if segs[0] == ".." {
        if at == [] {
          assert [name][..0] == [other][..0];
        } else {
          assert ([name] + at)[..|at|] == [name] + at[..|at| - 1];
          assert ([other] + at)[..|at|] == [other] + at[..|at| - 1];
          WalkRenamed(name, other, at[..|at| - 1], segs[1..]);
        }
      } else {
        assert ([name] + at) + [segs[0]] == [name] + (at + [segs[0]]);
        assert ([other] + at) + [segs[0]] == [other] + (at + [segs[0]]);
        WalkRenamed(name, other, at + [segs[0]], segs[1..]);
      }
    }
  }

  lemma {:induction false} WalkAppend(at: seq<string>, a: seq<string>, b: seq<string>)
    ensures WalkFrom(at, a + b) ==
            (if WalkFrom(at, a).Some? then WalkFrom(WalkFrom(at, a).value, b) else None)
    decreases a
  {
    if a == [] {
      assert a + b == b;
    } else {
      assert (a + b)[1..] == a[1..] + b;
      if StaysPut(a[0]) {
        WalkAppend(at, a[1..], b);
      } else if a[0] == ".." {
        if at != [] {
          WalkAppend(at[..|at| - 1], a[1..], b);
        }
      } else {
        WalkAppend(at + [a[0]], a[1..], b);
      }
    }
  }

  predicate StaysPut(seg: string) {
    seg == "" || seg == "."
  }

  lemma {:induction false} SplitLead(lead: string, s: string)
    requires '/' !in lead
    ensures Split(lead + s, '/') == [lead + Split(s, '/')[0]] + Split(s, '/')[1..]
  {
    if lead == "" {
      assert lead + s == s;
      assert lead + Split(s, '/')[0] == Split(s, '/')[0];
    } else {
      SplitLead(lead[1..], s);
      assert (lead + s)[1..] == lead[1..] + s;
      assert [lead[0]] + (lead[1..] + Split(s, '/')[0]) == lead + Split(s, '/')[0];
    }
  }

  /** The parts with a text put behind the last one. */
  function Trailed(parts: seq<string>, trail: string): seq<string>
    requires parts != []
  {
    parts[..|parts| - 1] + [parts[|parts| - 1] + trail]
  }

  lemma {:induction false} PrependTrailed(c: char, rest: seq<string>, trail: string)
    requires rest != []
    ensures Prepend(c, '/', Trailed(rest, trail)) == Trailed(Prepend(c, '/', rest), trail)
  {
    var n := |rest| - 1;
    if c == '/' {
      assert ([""] + rest)[..n + 1] == [""] + rest[..n];
    } else if n == 0 {
      assert [c] + (rest[0] + trail) == ([c] + rest[0]) + trail;
    } else {
      assert Trailed(rest, trail)[1..] == rest[1..n] + [rest[n] + trail];
    }
  }

  lemma {:induction false} SplitTrail(s: string, trail: string)
    requires '/' !in trail
    ensures Split(s + trail, '/') == Trailed(Split(s, '/'), trail)
  {
    if s == "" {
      SplitOne(trail, '/');
      assert s + trail == trail;
    } else {
      SplitPrepend(s, '/');
      SplitPrepend(s + trail, '/');
      SplitTrail(s[1..], trail);
      hide Split;
      hide Prepend;
      hide Trailed;
      assert (s + trail)[1..] == s[1..] + trail;
      PrependTrailed(s[0], Split(s[1..], '/'), trail);
    }
  }

  lemma {:induction false} TrimParts(s: string) returns (lead: string, trail: string)
    ensures s == lead + Trim(s) + trail && Blanks(lead) && Blanks(trail)
  {
    lead := TrimLeftParts(s);
    trail := TrimRightParts(TrimLeft(s));
  }

  predicate Blanks(s: string) {
    forall c :: c in s ==> IsSpace(c)
  }

  lemma {:induction false} TrimLeftParts(s: string) returns (lead: string)
    ensures s == lead + TrimLeft(s) && Blanks(lead)
  {
    lead := "";
    if s == "" || !IsSpace(s[0]) {
    } else {
      var rest := TrimLeftParts(s[1..]);
      lead := [s[0]] + rest;
    }
  }

  lemma {:induction false} TrimRightParts(s: string) returns (trail: string)
    ensures s == TrimRight(s) + trail && Blanks(trail)
  {
    trail := "";
    if s == "" || !IsSpace(s[|s| - 1]) {
    } else {
      var rest := TrimRightParts(s[..|s| - 1]);
      trail := rest + [s[|s| - 1]];
    }
  }

  predicate BlankFirst(seg: string) {
    seg != "" && IsSpace(seg[0])
  }

  predicate BlankLast(seg: string) {
    seg != "" && IsSpace(seg[|seg| - 1])
  }

  /** Blanks put in front of a path either leave the place where it ends or lead into a directory whose name starts
      with a blank. */
  lemma {:induction false} LeadPlace(lead: string, s: string)
    requires Blanks(lead) && s != "" && s[0] != '/' && Walk(s).Some?
    ensures Walk(lead + s).Some? && |Walk(s).value| <= |Walk(lead + s).value|
    ensures Walk(lead + s) == Walk(s) || BlankFirst(Walk(lead + s).value[0])
  {
    var p := Split(s, '/');
    SplitLead(lead, s);
    if lead == "" {
      assert lead + s == s;
    } else {
      assert lead[0] in lead;
      var first, rest := lead + p[0], p[1..];
      assert first[0] == lead[0];
      assert WalkFrom([], [first] + rest) == WalkFrom([first] + [], rest) by {
        assert ([first] + rest)[1..] == rest;
        assert [] + [first] == [first] + [];
      }
      if StaysPut(p[0]) {
        WalkUnder(first, [], rest);
      } else {
        assert [] + [p[0]] == [p[0]] + [];
        WalkRenamed(p[0], first, [], rest);
      }
    }
  }

  lemma {:induction false} WalkLast(s: string)
    ensures var p := Split(s, '/');
            var front := WalkFrom([], p[..|p| - 1]);
            Walk(s) == if front.Some? then WalkFrom(front.value, [p[|p| - 1]]) else None
  {
    var p := Split(s, '/');
    assert p == p[..|p| - 1] + [p[|p| - 1]];
    WalkAppend([], p[..|p| - 1], [p[|p| - 1]]);
  }

  lemma {:induction false} WalkOne(at: seq<string>, seg: string)
    ensures WalkFrom(at, [seg]) ==
            if StaysPut(seg) then Some(at)
            else if seg == ".." then if at == [] then None else Some(at[..|at| - 1])
            else Some(at + [seg])
  {
    assert [seg][1..] == [];
  }

  /** Blanks put behind a path make its last segment a name, whatever it was. */
  lemma {:induction false} TrailPlace(s: string, trail: string)
    requires Blanks(trail) && trail != "" && Walk(s).Some?
    ensures var p := Split(s, '/');
            var front, last := WalkFrom([], p[..|p| - 1]), p[|p| - 1];
            && front.Some? && Walk(s) == WalkFrom(front.value, [last])
            && Split(s + trail, '/') == p[..|p| - 1] + [last + trail] && BlankLast(last + trail)
            && Walk(s + trail) == Some(front.value + [last + trail])
  {
    var p := Split(s, '/');
    var last := p[|p| - 1] + trail;
    WalkLast(s);
    SplitTrail(s, trail);
    WalkLast(s + trail);
    var q := Split(s + trail, '/');
    assert q[..|q| - 1] == p[..|p| - 1] && q[|q| - 1] == last;
    assert trail[|trail| - 1] in trail;
    assert last[|last| - 1] == trail[|trail| - 1];
    WalkOne(WalkFrom([], p[..|p| - 1]).value, last);
  }

  lemma {:induction false} AcceptedTrimmed(path: string)
    requires PathRejection(path) == Accepted
    ensures Trim(path) != "" && Trim(path)[0] != '/' && !BlankLast(Trim(path))
    ensures Walk(Trim(path)).Some? && Walk(Trim(path)).value != []
    ensures !InGitMetadata(Walk(Trim(path)).value) && !BelowWorkflows(Walk(Trim(path)).value)
  {
    RejectionIsWhereTheWalkEnds(path);
    TrimSpec(path);
    hide Walk;
    hide Trim;
    assert Trim(path)[0] == '/' ==> "/" <= Trim(path);
  }

  /** The path without the blanks behind it, and these blanks. */
  lemma {:induction false} AcceptedFront(path: string) returns (front: string, trail: string)
    requires PathRejection(path) == Accepted
    ensures path == front + trail && Blanks(trail) && !BlankLast(front)
    ensures Walk(front).Some? && Walk(front).value != []
    ensures BlankFirst(Walk(front).value[0])
            || (!InGitMetadata(Walk(front).value) && !BelowWorkflows(Walk(front).value))
  {
    hide PathRejection;
    hide Walk;
    hide Trim;
    var rel := Trim(path);
    AcceptedTrimmed(path);
    var lead, blanks := TrimParts(path);
    LeadPlace(lead, rel);
    front, trail := lead + rel, blanks;
    assert front[|front| - 1] == rel[|rel| - 1];
  }

  /** An accepted path, as it was given, is written at the place where walking it ends: below the root, and never in
      the repository's metadata. */
  lemma {:induction false} AcceptedPlace(path: string)
    requires PathRejection(path) == Accepted
    ensures Walk(path) == Some(CleanSegments(path)) && PlainNames(CleanSegments(path))
    ensures CleanSegments(path) != [] && !InGitMetadata(CleanSegments(path))
  {
    var front, trail := AcceptedFront(path);
    CleanOfWalk(path);
    if trail == "" {
      assert front + trail == front;
    } else {
      var p := Split(front, '/');
      TrailPlace(front, trail);
      WalkOne(WalkFrom([], p[..|p| - 1]).value, p[|p| - 1]);
    }
  }

  /** Where the path leads without its last segment. */
  function Parent(path: string): Option<seq<string>> {
    WalkFrom([], Split(path, '/')[..|Split(path, '/')| - 1])
  }

  function LastSegment(path: string): string {
    Split(path, '/')[|Split(path, '/')| - 1]
  }

  predicate AtWorkflows(at: Option<seq<string>>) {
    at.Some? && |at.value| >= 2 && at.value[0] == ".github" && at.value[1] == "workflows"
  }

  /** The second check can never fail: whatever the root, a path that was accepted, cleaned as it was
      given and joined to the root, lies strictly below the root. */
  lemma {:induction false} AcceptedStaysWithinRoot(root: seq<string>, path: string)
    requires PathRejection(path) == Accepted
    ensures WithinRoot(root, JoinRoot(root, Clean(path)))
  {
    AcceptedPlace(path);
    CleanOfWalk(path);
    JoinFromNames(root, CleanSegments(path));
    RelativeBelow(root, CleanSegments(path));
  }

  /** The last segment ends as the path does. */
  lemma {:induction false} LastOfSplit(s: string)
    ensures BlankLast(LastSegment(s)) <==> BlankLast(s)
  {
    if s == "" {
    } else {
      LastOfSplit(s[1..]);
    }
  }

  lemma {:induction false} TrimRightAppend(s: string, trail: string)
    requires Blanks(trail) && !BlankLast(s)
    ensures TrimRight(s + trail) == s
  {
    if trail == "" {
      assert s + trail == s;
    } else {
      var n := |trail| - 1;
      assert trail[n] in trail;
      assert (s + trail)[..|s| + n] == s + trail[..n];
      TrimRightAppend(s, trail[..n]);
    }
  }

  lemma {:induction false} BlankedBelow(at: seq<string>, last: string, named: string)
    requires WalkFrom(at, [last]).Some? && WalkFrom(at, [last]).value != []
    requires BlankFirst(WalkFrom(at, [last]).value[0]) || !BelowWorkflows(WalkFrom(at, [last]).value)
    ensures BelowWorkflows(at + [named]) <==> AtWorkflows(Some(at)) && last in ["", ".", ".."]
  {
    WalkOne(at, last);
  }

  lemma {:induction false} TrailEnds(s: string, trail: string)
    requires Blanks(trail) && trail != "" && Walk(s).Some?
    ensures Parent(s).Some? && Walk(s) == WalkFrom(Parent(s).value, [LastSegment(s)])
    ensures Parent(s + trail) == Parent(s) && LastSegment(s + trail) == LastSegment(s) + trail
    ensures BlankLast(LastSegment(s) + trail) && Walk(s + trail) == Some(Parent(s).value + [LastSegment(s) + trail])
  {
    hide Walk;
    hide WalkFrom;
    hide Split;
    TrailPlace(s, trail);
    var p := Split(s, '/');
    var q := Split(s + trail, '/');
    assert q[..|q| - 1] == p[..|p| - 1] && q[|q| - 1] == p[|p| - 1] + trail;
  }

  /** The verdict is on the trimmed path. As it was given, an accepted path is written below the workflow directory
      exactly if it leads there or below and its last segment is nothing, `.` or `..` but for blanks behind it, which
      make a name of it. A path without surrounding blanks never is. */
  lemma {:induction false} WrittenBelowWorkflowsIff(path: string)
    requires PathRejection(path) == Accepted
    ensures BelowWorkflows(CleanSegments(path)) <==>
              && AtWorkflows(Parent(path)) && BlankLast(LastSegment(path))
              && TrimRight(LastSegment(path)) in ["", ".", ".."]
    ensures Trim(path) == path ==> !BelowWorkflows(CleanSegments(path))
  {
    var front, trail := AcceptedFront(path);
    AcceptedPlace(path);
    TrimSpec(path);
    LastOfSplit(path);
    hide PathRejection;
    hide CleanSegments;
    hide TrimRight;
    hide Trim;
    hide Walk;
    hide WalkFrom;
    hide Split;
    hide Parent;
    hide LastSegment;
    hide AtWorkflows;
    hide BelowWorkflows;
    if trail == "" {
      assert front + trail == front;
    } else {
      TrailEnds(front, trail);
      LastOfSplit(front);
      TrimRightAppend(LastSegment(front), trail);
      BlankedBelow(Parent(front).value, LastSegment(front), LastSegment(path));
    }
  }

  lemma {:induction false} WalkOfTwo(first: string, second: string, last: string)
    requires PlainName(first) && PlainName(second) && '/' !in last
    ensures Walk(first + "/" + second + "/" + last) == WalkFrom([first, second], [last])
  {
    SplitTwo(first, second, last);
    SplitOne(last, '/');
    WalkAppend([], [first, second], [last]);
    assert [first, second][1..] == [second];
    WalkOne([first], second);
    assert [] + [first] == [first] && [first] + [second] == [first, second];
  }

  lemma {:induction false} TrimTrail(s: string, trail: string)
    requires s != "" && Trimmed(s) && Blanks(trail)
    ensures Trim(s + trail) == s
  {
    assert (s + trail)[0] == s[0];
    assert TrimLeft(s + trail) == s + trail;
    TrimRightAppend(s, trail);
  }

  lemma {:induction false} BlankUnder(first: string, second: string, front: string)
    requires PlainName(first) && PlainName(second) && front == first + "/" + second + "/"
    ensures Walk(front) == Some([first, second]) && Walk(front + " ") == Some([first, second, " "])
  {
    hide Walk;
    hide WalkFrom;
    WalkOfTwo(first, second, "");
    WalkOfTwo(first, second, " ");
    WalkOne([first, second], "");
    WalkOne([first, second], " ");
    assert first + "/" + second + "/" + "" == front;
    assert [first, second] + [" "] == [first, second, " "];
  }

  lemma {:induction false} AcceptedWithBlank(front: string, at: seq<string>)
    requires WellSpelled(front) && Trimmed(front) && Walk(front) == Some(at) && Walk(front + " ").Some?
    requires at != [] && !InGitMetadata(at) && !BelowWorkflows(at)
    ensures PathRejection(front + " ") == Accepted && CleanSegments(front + " ") == Walk(front + " ").value
  {
    hide Walk;
    hide Trim;
    TrimTrail(front, " ");
    RejectionIsWhereTheWalkEnds(front + " ");
    CleanOfWalk(front + " ");
  }

  lemma {:induction false} WorkflowsSpelled()
    ensures WellSpelled(".github/workflows/") && Trimmed(".github/workflows/")
    ensures ".github" + "/" + "workflows" + "/" == ".github/workflows/"
    ensures PlainName(".github") && PlainName("workflows")
  {
    assert |".github"| == 7 && |"workflows"| == 9 && |"."| == 1 && |".."| == 2 && |".github/workflows/"| == 18;
    assert ".github/workflows/"[0] == '.' && ".github/workflows/"[17] == '/';
    assert ".github" + "/" + "workflows" + "/" == ".github/workflows/";
  }

  /** Such a path: a blank behind the workflow directory and a slash is refused by no check and names a file there. */
  lemma {:induction false} BlankInWorkflows()
    ensures PathRejection(".github/workflows/" + " ") == Accepted
    ensures CleanSegments(".github/workflows/" + " ") == [".github", "workflows", " "]
  {
    hide PathRejection;
    hide CleanSegments;
    hide Walk;
    hide Trimmed;
    hide WellSpelled;
    WorkflowsSpelled();
    BlankUnder(".github", "workflows", ".github/workflows/");
    AcceptedWithBlank(".github/workflows/", [".github", "workflows"]);
  }
}
