/** The board store: column lists that index the tasks, and the minting of spec ids from the names of
    the spec directories. */
module Boards {
  import opened Options
  import opened Text
  import opened Columns
  import opened Decimal
  import Slugs

  // ---- spec ids ----

  const MAX_INT: int := 0x7FFF_FFFF_FFFF_FFFF

  /** The blanks `Sscanf` passes over before a number; it gives up at a line break. */
  function SkipBlanks(s: string): string {
    if s != "" && IsSpace(s[0]) && s[0] != '\n' then SkipBlanks(s[1..]) else s
  }

  /** `fmt.Sscanf(name, "%d-", &n)`: the number a spec directory's name starts with, if a dash follows it
      and it fits 64 bits. */
  function ScanNumber(name: string): Option<int> {
    var s := SkipBlanks(name);
    var negative := s != "" && s[0] == '-';
    var body := if s != "" && (s[0] == '-' || s[0] == '+') then s[1..] else s;
    var digits := Digits(body);
    DigitsSpec(body);
    var magnitude: int := Value(digits);
    var n := if negative then -magnitude else magnitude;
    if digits == "" || |body| == |digits| || body[|digits|] != '-' then None
    else if !(-MAX_INT - 1 <= n <= MAX_INT) then None
    else Some(n)
  }

  /** The largest number any name starts with, at least 0. */
  function MaxNumber(names: seq<string>): (n: int)
    ensures 0 <= n <= MAX_INT
  {
    if names == [] then 0
    else
      var front, scanned := MaxNumber(names[..|names| - 1]), ScanNumber(names[|names| - 1]);
      if scanned.Some? && scanned.value > front then scanned.value else front
  }

  /** Go's `n + 1` on a 64-bit int. */
  function Successor(n: int): int
    requires n <= MAX_INT
  {
    if n == MAX_INT then -MAX_INT - 1 else n + 1
  }

  /** `%03d`. */
  function PrintSpecNumber(n: int): string {
    if n >= 0 then Print3(n) else if n > -10 then "-0" + Print(-n) else "-" + Print(-n)
  }

  function SpecId(n: int, title: string): string {
    PrintSpecNumber(n) + "-" + Slugs.Slugify(title)
  }

  /** The id the store mints next. */
  function Minted(names: seq<string>, title: string): string {
    SpecId(Successor(MaxNumber(names)), title)
  }

  lemma {:induction false} MaxNumberBounds(names: seq<string>, name: string)
    requires name in names
    ensures ScanNumber(name).Some? ==> ScanNumber(name).value <= MaxNumber(names)
  {
    var n := |names| - 1;
    if name in names[..n] {
      MaxNumberBounds(names[..n], name);
    } else {
      assert names == names[..n] + [names[n]];
    }
  }

  /** The largest number is at least 0, at least every number that a name starts with, and one of these. */
  lemma {:induction false} MaxNumberIs(names: seq<string>)
    ensures MaxNumber(names) >= 0
    ensures forall name :: name in names && ScanNumber(name).Some? ==> ScanNumber(name).value <= MaxNumber(names)
    ensures MaxNumber(names) == 0 || exists name :: name in names && ScanNumber(name) == Some(MaxNumber(names))
  {
    forall name | name in names && ScanNumber(name).Some?
      ensures ScanNumber(name).value <= MaxNumber(names)
    {
      MaxNumberBounds(names, name);
    }
    hide ScanNumber;
    if names == [] {
    } else {
      var n := |names| - 1;
      MaxNumberIs(names[..n]);
      assert names == names[..n] + [names[n]];
    }
  }

  /** Blanks without a line break. */
  predicate Gap(s: string) {
    forall i :: 0 <= i < |s| ==> IsSpace(s[i]) && s[i] != '\n'
  }

  predicate Sign(s: string) {
    s == "" || s == "+" || s == "-"
  }

  /** The name starts with a signed number, after blanks, and goes on with a dash. */
  predicate Reads(name: string, gap: string, sign: string, digits: string, rest: string) {
    name == gap + (sign + (digits + ("-" + rest))) && Gap(gap) && Sign(sign) && digits != "" && AllDigits(digits)
  }

  lemma {:induction false} SkipGap(gap: string, s: string)
    requires Gap(gap) && (s == "" || !IsSpace(s[0]))
    ensures SkipBlanks(gap + s) == s
  {
    if gap == "" {
      assert gap + s == s;
    } else {
      SkipGap(gap[1..], s);
      assert (gap + s)[1..] == gap[1..] + s;
    }
  }

  lemma {:induction false} SkippedGap(name: string) returns (gap: string)
    ensures Gap(gap) && name == gap + SkipBlanks(name)
  {
    if name != "" && IsSpace(name[0]) && name[0] != '\n' {
      var rest := SkippedGap(name[1..]);
      gap := [name[0]] + rest;
    } else {
      gap := "";
    }
  }

  /** Scanning reads exactly the names that start so, and gives the number where it fits 64 bits. */
  lemma {:induction false} ScanReads(name: string, gap: string, sign: string, digits: string, rest: string)
    requires Reads(name, gap, sign, digits, rest)
    ensures var magnitude: int := Value(digits);
            var n := if sign == "-" then -magnitude else magnitude;
            ScanNumber(name) == if -0x8000_0000_0000_0000 <= n < 0x8000_0000_0000_0000 then Some(n) else None
  {
    var tail := "-" + rest;
    var body := digits + tail;
    assert IsDigit(digits[0]) && body[0] == digits[0];
    SkipGap(gap, sign + body);
    assert sign == "" ==> sign + body == body;
    assert sign != "" ==> (sign + body)[1..] == body && (sign + body)[0] == sign[0];
    DigitsOf(digits, tail);
  }

  /** The text behind a sign. */
  function Unsigned(s: string): string {
    if s != "" && (s[0] == '-' || s[0] == '+') then s[1..] else s
  }

  lemma {:induction false} ScanParts(name: string)
    requires ScanNumber(name).Some?
    ensures var body := Unsigned(SkipBlanks(name)); var digits := Digits(body);
            digits != "" && digits <= body && AllDigits(digits) && |body| > |digits| && body[|digits|] == '-'
  {
    DigitsSpec(Unsigned(SkipBlanks(name)));
  }

  lemma {:induction false} ScanShape(name: string) returns (gap: string, sign: string, digits: string, rest: string)
    requires ScanNumber(name).Some?
    ensures Reads(name, gap, sign, digits, rest)
  {
    ScanParts(name);
    hide ScanNumber;
    hide Digits;
    hide SkipBlanks;
    hide Gap;
    hide AllDigits;
    gap := SkippedGap(name);
    var s := SkipBlanks(name);
    var body := Unsigned(s);
    sign := if body == s then "" else [s[0]];
    assert s == sign + body;
    digits := Digits(body);
    rest := body[|digits| + 1..];
    CutAtDash(body, digits);
  }

  lemma {:induction false} CutAtDash(body: string, digits: string)
    requires digits <= body && |body| > |digits| && body[|digits|] == '-'
    ensures body == digits + ("-" + body[|digits| + 1..])
  {}

  /** A printed number: a sign where it is negative, then its digits, padded with zeros to three characters in all. */
  lemma {:induction false} PrintedNumber(n: int)
    ensures var s := PrintSpecNumber(n);
            var digits := if n < 0 then s[1..] else s;
            && |s| >= 3 && (n < 0 ==> s[0] == '-')
            && AllDigits(digits) && Value(digits) == (if n < 0 then -n else n)
            && (|s| > 3 ==> digits[0] != '0')
  {
    var magnitude: nat := if n < 0 then -n else n;
    ValuePrint(magnitude);
    PrintLength(magnitude);
    if n >= 0 {
      ValuePrint3(n);
    } else {
      ValueLeadingZero(Print(magnitude));
      assert n > -10 ==> PrintSpecNumber(n)[1..] == "0" + Print(magnitude);
      assert n <= -10 ==> PrintSpecNumber(n)[1..] == Print(magnitude);
    }
  }

  /** Scanning a printed spec id gives its number back. */
  lemma {:induction false} ScanMinted(n: int, title: string)
    requires 0 <= n <= MAX_INT
    ensures ScanNumber(SpecId(n, title)) == Some(n)
  {
    var digits, rest := Print3(n), "-" + Slugs.Slugify(title);
    ValuePrint3(n);
    assert IsDigit(digits[0]);
    assert SpecId(n, title) == digits + rest;
    DigitsOf(digits, rest);
  }

  /** Minting, exactly. The minted id is not in use unless some directory already carries the largest
      64-bit number and the id for the wrapped-around number is taken too. */
  lemma {:induction false} MintedIsFresh(names: seq<string>, title: string)
    ensures Minted(names, title) in names <==>
            MaxNumber(names) == MAX_INT && SpecId(-MAX_INT - 1, title) in names
    ensures MaxNumber(names) < MAX_INT ==> ScanNumber(Minted(names, title)) == Some(MaxNumber(names) + 1)
  {
    if MaxNumber(names) < MAX_INT {
      ScanMinted(MaxNumber(names) + 1, title);
      if Minted(names, title) in names {
        MaxNumberBounds(names, Minted(names, title));
      }
    }
  }

  /** Such a collision exists: two directories can make the store mint an id that is in use. */
  lemma {:induction false} MintedMayCollide()
    ensures var names := [SpecId(MAX_INT, "a"), SpecId(-MAX_INT - 1, "b")]; Minted(names, "b") in names
  {
    var names := [SpecId(MAX_INT, "a"), SpecId(-MAX_INT - 1, "b")];
    ScanMinted(MAX_INT, "a");
    assert names[0] in names && names[1] in names;
    MaxNumberBounds(names, names[0]);
    MintedIsFresh(names, "b");
  }

  // ---- the store ----

  datatype Store = Store(specs: seq<string>, tasks: map<string, Column>, board: map<Column, seq<string>>,
                         approved: set<string>)

  const BOARD_COLUMNS: seq<Column> := [Backlog, Queue, InProgress, Review, HumanReview, Column.Done]

  function Listed(board: map<Column, seq<string>>, c: Column): seq<string> {
    if c in board then board[c] else []
  }

  function Without(ids: seq<string>, id: string): seq<string> {
    if ids == [] then []
    else
      var last := ids[|ids| - 1];
      Without(ids[..|ids| - 1], id) + if last == id then [] else [last]
  }

  function AllColumns(board: map<Column, seq<string>>, id: string): map<Column, seq<string>> {
    map[Backlog := Without(Listed(board, Backlog), id), Queue := Without(Listed(board, Queue), id),
        InProgress := Without(Listed(board, InProgress), id), Review := Without(Listed(board, Review), id),
        HumanReview := Without(Listed(board, HumanReview), id), Column.Done := Without(Listed(board, Column.Done), id)]
  }

  function Filled(board: map<Column, seq<string>>): map<Column, seq<string>> {
    map[Backlog := Listed(board, Backlog), Queue := Listed(board, Queue), InProgress := Listed(board, InProgress),
        Review := Listed(board, Review), HumanReview := Listed(board, HumanReview),
        Column.Done := Listed(board, Column.Done)]
  }

  function Create(s: Store, title: string): Store {
    var id, board := Minted(s.specs, NonBlankTitle(title)), Filled(s.board);
    Store(if id in s.specs then s.specs else s.specs + [id], s.tasks[id := Backlog],
          board[Backlog := board[Backlog] + [id]], s.approved)
  }

  function NonBlankTitle(title: string): string {
    if Trim(title) == "" then "Untitled task" else Trim(title)
  }

  function Move(s: Store, id: string, toStatus: string): Store {
    var to := ParseColumn(Trim(toStatus));
    if to.None? || id !in s.tasks then s
    else
      var board := AllColumns(s.board, id);
      s.(tasks := s.tasks[id := to.value], board := board[to.value := board[to.value] + [id]])
  }

  function Delete(s: Store, id: string): Store {
    Store(Without(s.specs, id), s.tasks - {id}, AllColumns(s.board, id), s.approved - {id})
  }

  function Approve(s: Store, id: string): Store {
    if id !in s.tasks || s.tasks[id] != HumanReview then s
    else var moved := Move(s, id, "queue"); moved.(approved := moved.approved + {id})
  }

  // ---- what each operation does to the board ----

  /** Taking out an id leaves a list without it alone, and takes a single one out of its place. */
  lemma {:induction false} WithoutNone(ids: seq<string>, id: string)
    requires id !in ids
    ensures Without(ids, id) == ids
  {
    if ids == [] {
    } else {
      assert ids == ids[..|ids| - 1] + [ids[|ids| - 1]];
      WithoutNone(ids[..|ids| - 1], id);
    }
  }

  lemma {:induction false} WithoutOne(a: seq<string>, id: string, b: seq<string>)
    requires id !in a && id !in b
    ensures Without(a + [id] + b, id) == a + b
  {
    var all := a + [id] + b;
    if b == [] {
      assert all[..|a|] == a && a + b == a;
      WithoutNone(a, id);
    } else {
      var n := |b| - 1;
      assert all[..|all| - 1] == a + [id] + b[..n] && all[|all| - 1] == b[n];
      WithoutOne(a, id, b[..n]);
      assert a + b == a + b[..n] + [b[n]];
    }
  }

  /** The id stands in the list once at most, and `after` is the list without it. */
  predicate TakenOut(before: seq<string>, id: string, after: seq<string>) {
    && (id !in before ==> after == before)
    && (forall k :: 0 <= k < |before| && before[k] == id && id !in before[..k] && id !in before[k + 1..] ==>
          after == before[..k] + before[k + 1..])
    && id !in after
  }

  lemma {:induction false} WithoutTakesOut(ids: seq<string>, id: string)
    ensures TakenOut(ids, id, Without(ids, id))
  {
    WithoutMembers(ids, id, id);
    if id !in ids {
      WithoutNone(ids, id);
    }
    forall k | 0 <= k < |ids| && ids[k] == id && id !in ids[..k] && id !in ids[k + 1..]
      ensures Without(ids, id) == ids[..k] + ids[k + 1..]
    {
      assert ids == ids[..k] + [id] + ids[k + 1..];
      WithoutOne(ids[..k], id, ids[k + 1..]);
    }
  }

  lemma {:induction false} ColumnPresent(board: map<Column, seq<string>>, id: string, c: Column)
    ensures c in AllColumns(board, id)
  {}

  /** A live task moved to the text of a column, blanks around it aside, has that status and stands at the end of that
      column, out of every other place; the other tasks, the other entries, the specs and the approvals stay. */
  lemma {:induction false} MoveArrives(s: Store, id: string, toStatus: string, to: Column)
    requires id in s.tasks && Trim(toStatus) == ColumnName(to)
    ensures var s' := Move(s, id, toStatus);
            && s'.tasks == s.tasks[id := to] && s'.specs == s.specs && s'.approved == s.approved
            && (forall c :: c != to ==> TakenOut(Listed(s.board, c), id, Listed(s'.board, c)))
            && exists front :: Listed(s'.board, to) == front + [id] && TakenOut(Listed(s.board, to), id, front)
  {
    ParseColumnIff(Trim(toStatus), to);
    hide Without;
    hide TakenOut;
    hide Trim;
    hide ParseColumn;
    hide ColumnName;
    var board := AllColumns(s.board, id);
    forall c ensures c in board && Listed(board, c) == Without(Listed(s.board, c), id) {
      ListedAll(s.board, id, c);
      ColumnPresent(s.board, id, c);
    }
    hide AllColumns;
    forall c ensures TakenOut(Listed(s.board, c), id, Without(Listed(s.board, c), id)) {
      WithoutTakesOut(Listed(s.board, c), id);
    }
    assert Listed(Move(s, id, toStatus).board, to) == Without(Listed(s.board, to), id) + [id];
  }

  /** A move of anything but a live task, or to any other text, changes nothing. */
  lemma {:induction false} MoveRefused(s: Store, id: string, toStatus: string)
    requires id !in s.tasks || forall c :: Trim(toStatus) != ColumnName(c)
    ensures Move(s, id, toStatus) == s
  {
    forall c ensures ParseColumn(Trim(toStatus)) == Some(c) <==> Trim(toStatus) == ColumnName(c) {
      ParseColumnIff(Trim(toStatus), c);
    }
  }

  /** Approval moves a task in human review to the end of the queue and marks it, and does nothing to any other. */
  lemma {:induction false} ApproveQueues(s: Store, id: string)
    ensures var s' := Approve(s, id);
            if id in s.tasks && s.tasks[id] == HumanReview then
              && s'.tasks == s.tasks[id := Queue] && s'.specs == s.specs && s'.approved == s.approved + {id}
              && (forall c :: c != Queue ==> TakenOut(Listed(s.board, c), id, Listed(s'.board, c)))
              && exists front :: Listed(s'.board, Queue) == front + [id] && TakenOut(Listed(s.board, Queue), id, front)
            else s' == s
  {
    if id in s.tasks && s.tasks[id] == HumanReview {
      TrimSpec("queue");
      MoveArrives(s, id, "queue", Queue);
    }
  }

  /** Creation adds a task under the minted id, at the end of the backlog; all else stays. */
  lemma {:induction false} CreateAdds(s: Store, title: string)
    ensures var id, s' := Minted(s.specs, if Trim(title) == "" then "Untitled task" else Trim(title)), Create(s, title);
            && s'.tasks == s.tasks[id := Backlog] && s'.approved == s.approved
            && s'.specs == (if id in s.specs then s.specs else s.specs + [id])
            && (forall c :: Listed(s'.board, c) == Listed(s.board, c) + if c == Backlog then [id] else [])
  {
    forall c ensures Listed(Filled(s.board), c) == Listed(s.board, c) {
      ListedAll(s.board, "", c);
    }
  }

  /** Deletion takes the task out of the tasks, the specs, the approvals and every column; all else stays. */
  lemma {:induction false} DeleteRemoves(s: Store, id: string)
    ensures var s' := Delete(s, id);
            && s'.tasks == s.tasks - {id} && s'.approved == s.approved - {id}
            && TakenOut(s.specs, id, s'.specs)
            && (forall c :: TakenOut(Listed(s.board, c), id, Listed(s'.board, c)))
  {
    WithoutTakesOut(s.specs, id);
    forall c ensures TakenOut(Listed(s.board, c), id, Listed(Delete(s, id).board, c)) {
      ListedAll(s.board, id, c);
      WithoutTakesOut(Listed(s.board, c), id);
    }
  }

  // ---- the index invariant ----

  function Occurrences(ids: seq<string>, id: string): nat {
    if ids == [] then 0 else Occurrences(ids[..|ids| - 1], id) + if ids[|ids| - 1] == id then 1 else 0
  }

  /** How often an id must stand in a column: once in the column of its task's status, else never. */
  function Due(tasks: map<string, Column>, c: Column, id: string): nat {
    if id in tasks && tasks[id] == c then 1 else 0
  }

  /** The board lists every live task exactly once, in the column equal to its status, and nothing
      else; and the spec directories are those of the live tasks. */
  ghost predicate Indexed(s: Store) {
    && (forall c: Column, id: string :: Occurrences(Listed(s.board, c), id) == Due(s.tasks, c, id))
    && (forall id :: id in s.specs <==> id in s.tasks)
  }

  lemma {:induction false} OccurrencesSnoc(ids: seq<string>, x: string, id: string)
    ensures Occurrences(ids + [x], id) == Occurrences(ids, id) + if x == id then 1 else 0
  {
    assert (ids + [x])[..|ids|] == ids;
  }

  lemma {:induction false} WithoutMembers(ids: seq<string>, x: string, id: string)
    ensures id in Without(ids, x) <==> id in ids && id != x
  {
    if ids == [] {
    } else {
      var n := |ids| - 1;
      WithoutMembers(ids[..n], x, id);
      assert ids == ids[..n] + [ids[n]];
    }
  }

  lemma {:induction false} OccurrencesWithout(ids: seq<string>, x: string, id: string)
    ensures Occurrences(Without(ids, x), id) == if x == id then 0 else Occurrences(ids, id)
    ensures id in Without(ids, x) <==> id in ids && id != x
  {
    if ids == [] {
    } else {
      var n := |ids| - 1;
      var front := Without(ids[..n], x);
      OccurrencesWithout(ids[..n], x, id);
      WithoutMembers(ids, x, id);
      if ids[n] == x {
        assert Without(ids, x) == front;
      } else {
        assert Without(ids, x) == front + [ids[n]];
        OccurrencesSnoc(front, ids[n], id);
      }
    }
  }

  lemma {:induction false} ListedAll(board: map<Column, seq<string>>, id: string, c: Column)
    ensures Listed(AllColumns(board, id), c) == Without(Listed(board, c), id)
    ensures Listed(Filled(board), c) == Listed(board, c)
  {}

  lemma {:induction false} ListedAppend(board: map<Column, seq<string>>, to: Column, id: string, c: Column, x: string)
    ensures Occurrences(Listed(board[to := Listed(board, to) + [id]], c), x)
            == Occurrences(Listed(board, c), x) + if c == to && x == id then 1 else 0
  {
    OccurrencesSnoc(Listed(board, to), id, x);
  }

  lemma {:induction false} CreateColumn(s: Store, title: string, c: Column, x: string)
    requires Indexed(s) && Minted(s.specs, NonBlankTitle(title)) !in s.tasks
    ensures Occurrences(Listed(Create(s, title).board, c), x) == Due(Create(s, title).tasks, c, x)
  {
    var id := Minted(s.specs, NonBlankTitle(title));
    ListedAll(s.board, id, c);
    ListedAll(s.board, id, Backlog);
    ListedAppend(Filled(s.board), Backlog, id, c, x);
    assert Occurrences(Listed(s.board, c), x) == Due(s.tasks, c, x);
  }

  /** Creating a task keeps the index exactly if the minted id was not in use. */
  lemma {:induction false} CreateIndexed(s: Store, title: string)
    requires Indexed(s)
    ensures Indexed(Create(s, title)) <==> Minted(s.specs, NonBlankTitle(title)) !in s.specs
  {
    var id, s' := Minted(s.specs, NonBlankTitle(title)), Create(s, title);
    if id in s.specs {
      CreateListsTwice(s, title);
    } else {
      forall c: Column, x: string ensures Occurrences(Listed(s'.board, c), x) == Due(s'.tasks, c, x) {
        CreateColumn(s, title, c, x);
      }
    }
  }

  lemma {:induction false} CreateListsTwice(s: Store, title: string)
    requires Indexed(s) && Minted(s.specs, NonBlankTitle(title)) in s.specs
    ensures !Indexed(Create(s, title))
  {
    hide Minted;
    hide NonBlankTitle;
    var id, s' := Minted(s.specs, NonBlankTitle(title)), Create(s, title);
    var c := s.tasks[id];
    ListedAll(s.board, id, c);
    ListedAll(s.board, id, Backlog);
    ListedAppend(Filled(s.board), Backlog, id, c, id);
    assert Occurrences(Listed(s.board, c), id) == Due(s.tasks, c, id) == 1;
    assert Occurrences(Listed(s'.board, c), id) != Due(s'.tasks, c, id);
  }

  lemma {:induction false} UnlistedColumn(s: Store, id: string, c: Column, x: string)
    requires Indexed(s)
    ensures Occurrences(Listed(AllColumns(s.board, id), c), x) == Due(s.tasks - {id}, c, x)
  {
    ListedAll(s.board, id, c);
    OccurrencesWithout(Listed(s.board, c), id, x);
    assert Occurrences(Listed(s.board, c), x) == Due(s.tasks, c, x);
  }

  lemma {:induction false} MoveColumn(board: map<Column, seq<string>>, tasks: map<string, Column>, id: string,
                                      to: Column, c: Column, x: string)
    requires to in board
    requires Occurrences(Listed(board, c), x) == Due(tasks - {id}, c, x)
    ensures Occurrences(Listed(board[to := board[to] + [id]], c), x) == Due(tasks[id := to], c, x)
  {
    ListedAppend(board, to, id, c, x);
  }

  lemma {:induction false} MoveIndexed(s: Store, id: string, toStatus: string)
    requires Indexed(s)
    ensures Indexed(Move(s, id, toStatus))
  {
    var to, s' := ParseColumn(Trim(toStatus)), Move(s, id, toStatus);
    if to.Some? && id in s.tasks {
      var board := AllColumns(s.board, id);
      forall c: Column, x: string ensures Occurrences(Listed(s'.board, c), x) == Due(s'.tasks, c, x) {
        UnlistedColumn(s, id, c, x);
        MoveColumn(board, s.tasks, id, to.value, c, x);
      }
    }
  }

  lemma {:induction false} DeleteIndexed(s: Store, id: string)
    requires Indexed(s)
    ensures Indexed(Delete(s, id))
  {
    var s' := Delete(s, id);
    forall c: Column, x: string ensures Occurrences(Listed(s'.board, c), x) == Due(s'.tasks, c, x) {
      UnlistedColumn(s, id, c, x);
    }
    forall x ensures x in s'.specs <==> x in s'.tasks {
      OccurrencesWithout(s.specs, id, x);
    }
  }

  // ---- runs ----

  datatype Op =
    | CreateTask(title: string)
    | MoveTask(id: string, toStatus: string)
    | DeleteTask(id: string)
    | ApproveForCoding(id: string)

  function Exec(s: Store, op: Op): Store {
    match op
    case CreateTask(title) => Create(s, title)
    case MoveTask(id, toStatus) => Move(s, id, toStatus)
    case DeleteTask(id) => Delete(s, id)
    case ApproveForCoding(id) => Approve(s, id)
  }

  function Run(s: Store, ops: seq<Op>): Store {
    if ops == [] then s else Exec(Run(s, ops[..|ops| - 1]), ops[|ops| - 1])
  }

  const NEW_STORE := Store([], map[], map[], {})

  lemma {:induction false} MaxNumberGrows(names: seq<string>, name: string)
    ensures MaxNumber(names + [name]) ==
            if ScanNumber(name).Some? && ScanNumber(name).value > MaxNumber(names) then ScanNumber(name).value
            else MaxNumber(names)
  {
    assert (names + [name])[..|names|] == names;
  }

  lemma {:induction false} MaxNumberShrinks(names: seq<string>, id: string)
    ensures MaxNumber(Without(names, id)) <= MaxNumber(names)
  {
    if names == [] {
    } else {
      var n := |names| - 1;
      MaxNumberShrinks(names[..n], id);
      if names[n] != id {
        MaxNumberGrows(Without(names[..n], id), names[n]);
      } else {
        assert Without(names[..n], id) + [] == Without(names[..n], id);
      }
    }
  }

  lemma {:induction false} ExecIndexed(s: Store, op: Op)
    requires Indexed(s) && MaxNumber(s.specs) < MAX_INT
    ensures Indexed(Exec(s, op)) && MaxNumber(Exec(s, op).specs) <= MaxNumber(s.specs) + 1
  {
    match op {
      case CreateTask(title) =>
        var named := NonBlankTitle(title);
        CreateIndexed(s, title);
        MintedIsFresh(s.specs, named);
        MaxNumberGrows(s.specs, Minted(s.specs, named));
      case MoveTask(id, toStatus) => MoveIndexed(s, id, toStatus);
      case DeleteTask(id) =>
        DeleteIndexed(s, id);
        MaxNumberShrinks(s.specs, id);
      case ApproveForCoding(id) => MoveIndexed(s, id, "queue");
    }
  }

  /** The board index holds after every run of fewer than 2^63 - 1 store operations on a new project,
      and each id minted along the way was not in use. */
  lemma {:induction false} RunIndexed(ops: seq<Op>)
    requires |ops| < MAX_INT
    ensures var s := Run(NEW_STORE, ops);
            && Indexed(s)
            && MaxNumber(s.specs) <= |ops|
            && (forall title :: Minted(s.specs, title) !in s.specs)
  {
    if ops == [] {
    } else {
      RunIndexed(ops[..|ops| - 1]);
      ExecIndexed(Run(NEW_STORE, ops[..|ops| - 1]), ops[|ops| - 1]);
    }
    var s := Run(NEW_STORE, ops);
    forall title ensures Minted(s.specs, title) !in s.specs {
      MintedIsFresh(s.specs, title);
    }
  }

  // ---- the store as it is edited in place ----

  method RemoveFrom(ids: seq<string>, id: string) returns (filtered: seq<string>)
    ensures filtered == Without(ids, id)
  {
    filtered := [];
    for i := 0 to |ids|
      invariant filtered == Without(ids[..i], id)
    {
      assert ids[..i + 1][..i] == ids[..i];
      if ids[i] != id {
        filtered := filtered + [ids[i]];
      }
    }
    assert ids[..|ids|] == ids;
  }

  method NextSpecID(names: seq<string>, title: string) returns (id: string)
    ensures id == Minted(names, title)
  {
    var maxN := 0;
    for i := 0 to |names|
      invariant maxN == MaxNumber(names[..i])
    {
      assert names[..i + 1][..i] == names[..i];
      var n := ScanNumber(names[i]);
      if n.Some? && n.value > maxN {
        maxN := n.value;
      }
    }
    assert names[..|names|] == names;
    id := SpecId(Successor(maxN), title);
  }

  class ProjectStore {
    var specs: seq<string>
    var tasks: map<string, Column>
    var board: map<Column, seq<string>>
    var approved: set<string>

    constructor ()
      ensures Value() == NEW_STORE
    {
      specs, tasks, board, approved := [], map[], map[], {};
    }

    function Value(): Store
      reads this
    {
      Store(specs, tasks, board, approved)
    }

    method RunCreateTask(title: string) returns (id: string)
      modifies this
      ensures Value() == Create(old(Value()), title)
      ensures id == Minted(old(specs), NonBlankTitle(title))
    {
      id := NextSpecID(specs, NonBlankTitle(title));
      if id !in specs {
        specs := specs + [id];
      }
      tasks := tasks[id := Backlog];
      var filled := FillColumns();
      board := filled[Backlog := filled[Backlog] + [id]];
    }

    /** The board with every column present. */
    method FillColumns() returns (filled: map<Column, seq<string>>)
      ensures filled == Filled(board)
    {
      hide Filled;
      filled := map[];
      for i := 0 to |BOARD_COLUMNS|
        invariant forall c :: c in filled <==> c in BOARD_COLUMNS[..i]
        invariant forall c :: c in filled ==> filled[c] == Listed(board, c)
      {
        filled := filled[BOARD_COLUMNS[i] := Listed(board, BOARD_COLUMNS[i])];
      }
      EveryColumn();
      AllFilled(board, filled);
    }

    /** Takes an id out of every column. */
    method Unlist(id: string)
      modifies this`board
      ensures board == AllColumns(old(board), id)
    {
      hide Without;
      var filtered: map<Column, seq<string>> := map[];
      for i := 0 to |BOARD_COLUMNS|
        invariant forall c :: c in filtered <==> c in BOARD_COLUMNS[..i]
        invariant forall c :: c in filtered ==> filtered[c] == Without(Listed(board, c), id)
        invariant board == old(board)
      {
        var rest := RemoveFrom(Listed(board, BOARD_COLUMNS[i]), id);
        filtered := filtered[BOARD_COLUMNS[i] := rest];
      }
      EveryColumn();
      board := filtered;
    }

    method RunMoveTask(id: string, toStatus: string) returns (ok: bool)
      modifies this
      ensures Value() == Move(old(Value()), id, toStatus)
      ensures ok <==> ParseColumn(Trim(toStatus)).Some? && id in old(tasks)
    {
      var to := ParseColumn(Trim(toStatus));
      if to.None? || id !in tasks {
        return false;
      }
      Unlist(id);
      board := board[to.value := board[to.value] + [id]];
      tasks := tasks[id := to.value];
      return true;
    }

    method RunDeleteTask(id: string)
      modifies this
      ensures Value() == Delete(old(Value()), id)
    {
      Unlist(id);
      specs := RemoveFrom(specs, id);
      tasks := tasks - {id};
      approved := approved - {id};
    }

    method RunApproveForCoding(id: string) returns (ok: bool)
      modifies this
      ensures Value() == Approve(old(Value()), id)
      ensures ok <==> id in old(tasks) && old(tasks)[id] == HumanReview
    {
      if id !in tasks || tasks[id] != HumanReview {
        return false;
      }
      ok := RunMoveTask(id, "queue");
      QueueParses();
      approved := approved + {id};
    }
  }

  lemma {:induction false} AllFilled(board: map<Column, seq<string>>, filled: map<Column, seq<string>>)
    requires forall c: Column :: c in filled && filled[c] == Listed(board, c)
    ensures filled == Filled(board)
  {
    forall c: Column ensures c in Filled(board) && Filled(board)[c] == filled[c] {
      match c {
        case Backlog =>
        case Queue =>
        case InProgress =>
        case Review =>
        case HumanReview =>
        case Done =>
      }
    }
  }

  lemma {:induction false} EveryColumn()
    ensures forall c: Column :: c in BOARD_COLUMNS
    ensures BOARD_COLUMNS[..|BOARD_COLUMNS|] == BOARD_COLUMNS
  {
    forall c: Column ensures c in BOARD_COLUMNS {
      var i := match c
        case Backlog => 0
        case Queue => 1
        case InProgress => 2
        case Review => 3
        case HumanReview => 4
        case Done => 5;
      assert BOARD_COLUMNS[i] == c;
    }
  }

  lemma {:induction false} QueueParses()
    ensures ParseColumn(Trim("queue")) == Some(Queue)
  {
    TrimSpec("queue");
  }
}
