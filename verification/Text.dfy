/** The string operations of Go's standard library that the modelled code leans on, over ASCII:
    trimming, lower-casing, splitting and joining. */
module Text {

  // '\t', '\n', '\v', '\f', '\r' and the blank.
  predicate IsSpace(c: char) {
    c == ' ' || '\t' <= c <= '\r'
  }

  lemma {:induction false} SpaceChars(c: char)
    ensures IsSpace(c) <==> c in [' ', '\t', '\n', '\U{0B}', '\U{0C}', '\r']
  {}

  function TrimLeft(s: string): string {
    if s != "" && IsSpace(s[0]) then TrimLeft(s[1..]) else s
  }

  function TrimRight(s: string): string {
    if s != "" && IsSpace(s[|s| - 1]) then TrimRight(s[..|s| - 1]) else s
  }

  function Trim(s: string): string {
    TrimRight(TrimLeft(s))
  }

  predicate Trimmed(s: string) {
    s == "" || (!IsSpace(s[0]) && !IsSpace(s[|s| - 1]))
  }

  lemma {:induction false} TrimLeftSpec(s: string)
    ensures TrimLeft(s) == "" || !IsSpace(TrimLeft(s)[0])
    ensures forall c :: c in TrimLeft(s) ==> c in s
    ensures forall i :: 0 <= i < |s| && !IsSpace(s[i]) ==> s[i] in TrimLeft(s)
  {
    if s == "" || !IsSpace(s[0]) {
    } else {
      TrimLeftSpec(s[1..]);
      assert s == [s[0]] + s[1..];
    }
  }

  lemma {:induction false} TrimRightSpec(s: string)
    ensures TrimRight(s) == "" || !IsSpace(TrimRight(s)[|TrimRight(s)| - 1])
    ensures TrimRight(s) <= s
    ensures forall i :: 0 <= i < |s| && !IsSpace(s[i]) ==> s[i] in TrimRight(s)
  {
    if s == "" || !IsSpace(s[|s| - 1]) {
    } else {
      TrimRightSpec(s[..|s| - 1]);
      assert s == s[..|s| - 1] + [s[|s| - 1]];
    }
  }

  /** Trimming leaves no space at either end, and leaves a text that has none alone. */
  lemma {:induction false} TrimSpec(s: string)
    ensures Trimmed(Trim(s))
    ensures Trimmed(s) ==> Trim(s) == s
    ensures Trim(Trim(s)) == Trim(s)
    ensures forall c :: c in Trim(s) ==> c in s
    ensures Trim(s) == "" <==> forall c :: c in s ==> IsSpace(c)
  {
    TrimLeftSpec(s);
    TrimRightSpec(TrimLeft(s));
    TrimLeftSpec(Trim(s));
    TrimRightSpec(TrimLeft(Trim(s)));
    if Trim(s) == "" {
      forall c | c in s ensures IsSpace(c) {}
    } else {
      assert Trim(s)[0] in s;
    }
  }

  function LowerChar(c: char): char {
    if 'A' <= c <= 'Z' then c - 'A' + 'a' else c
  }

  function Lower(s: string): (l: string)
    ensures |l| == |s|
    ensures forall i :: 0 <= i < |s| ==> l[i] == LowerChar(s[i])
  {
    seq(|s|, i requires 0 <= i < |s| => LowerChar(s[i]))
  }

  predicate Lowered(s: string) {
    forall i :: 0 <= i < |s| ==> !('A' <= s[i] <= 'Z')
  }

  lemma {:induction false} LowerSpec(s: string)
    ensures Lowered(Lower(s))
    ensures Lowered(s) ==> Lower(s) == s
  {}

  /** The comparison key the roadmap code uses: trimmed and lower-cased. */
  function Key(s: string): string {
    Lower(Trim(s))
  }

  predicate Contains(s: string, sub: string) {
    sub <= s || (s != "" && Contains(s[1..], sub))
  }

  predicate StandsAt(sub: string, s: string, i: nat) {
    i + |sub| <= |s| && s[i..i + |sub|] == sub
  }

  /** The text stands somewhere in the other. */
  predicate Occurs(sub: string, s: string) {
    exists i :: 0 <= i <= |s| && StandsAt(sub, s, i)
  }

  lemma {:induction false} ContainsOccurs(s: string, sub: string)
    ensures Contains(s, sub) <==> Occurs(sub, s)
  {
    if sub <= s {
      assert StandsAt(sub, s, 0);
    } else if s == "" {
    } else {
      ContainsOccurs(s[1..], sub);
      if i :| 0 <= i <= |s| && StandsAt(sub, s, i) {
        assert i > 0;
        StandsShifted(sub, s, i - 1);
      }
      if i :| 0 <= i <= |s[1..]| && StandsAt(sub, s[1..], i) {
        StandsShifted(sub, s, i);
      }
    }
  }

  lemma {:induction false} StandsShifted(sub: string, s: string, i: nat)
    requires s != ""
    ensures StandsAt(sub, s[1..], i) <==> StandsAt(sub, s, i + 1)
  {
    if i + 1 + |sub| <= |s| {
      assert s[1..][i..i + |sub|] == s[i + 1..i + 1 + |sub|];
    }
  }

  /** `strings.ReplaceAll(s, c, "")` for a one-character `c`. */
  function Drop(s: string, c: char): string {
    if s == "" then "" else (if s[0] == c then "" else [s[0]]) + Drop(s[1..], c)
  }

  lemma {:induction false} DropSpec(s: string, c: char)
    ensures c !in Drop(s, c)
    ensures forall d :: d in Drop(s, c) <==> d in s && d != c
    ensures c !in s ==> Drop(s, c) == s
  {
    if s == "" {
    } else {
      DropSpec(s[1..], c);
      assert s == [s[0]] + s[1..];
    }
  }

  /** Dropping a character takes it out wherever it stands, and moves nothing. */
  lemma {:induction false} DropAt(a: string, c: char, b: string)
    ensures Drop(a + [c] + b, c) == Drop(a, c) + Drop(b, c)
  {
    var all := a + [c] + b;
    DropFirst(all, c);
    if a == "" {
      assert all[1..] == b;
    } else {
      DropFirst(a, c);
      DropAt(a[1..], c, b);
      hide Drop;
      assert all[0] == a[0] && all[1..] == a[1..] + [c] + b;
    }
  }

  lemma {:induction false} DropFirst(s: string, c: char)
    requires s != ""
    ensures Drop(s, c) == (if s[0] == c then "" else [s[0]]) + Drop(s[1..], c)
  {}

  // ---- splitting and joining at a separator ----

  function Split(s: string, sep: char): (parts: seq<string>)
    ensures parts != []
  {
    if s == "" then [""]
    else
      var rest := Split(s[1..], sep);
      if s[0] == sep then [""] + rest else [[s[0]] + rest[0]] + rest[1..]
  }

  function Join(parts: seq<string>, sep: char): string {
    if parts == [] then ""
    else if |parts| == 1 then parts[0]
    else parts[0] + [sep] + Join(parts[1..], sep)
  }

  lemma {:induction false} SplitParts(s: string, sep: char)
    ensures forall p :: p in Split(s, sep) ==> sep !in p
  {
    if s == "" {
    } else {
      SplitParts(s[1..], sep);
      var rest := Split(s[1..], sep);
      assert rest[0] in rest;
      assert forall p :: p in rest[1..] ==> p in rest;
    }
  }

  lemma {:induction false} SplitOne(s: string, sep: char)
    requires sep !in s
    ensures Split(s, sep) == [s]
  {
    if s == "" {
    } else {
      SplitOne(s[1..], sep);
      assert s == [s[0]] + s[1..];
    }
  }

  lemma {:induction false} SplitCons(p: string, rest: string, sep: char)
    requires sep !in p
    ensures Split(p + [sep] + rest, sep) == [p] + Split(rest, sep)
  {
    var s := p + [sep] + rest;
    if p == "" {
      assert s[1..] == rest;
    } else {
      SplitCons(p[1..], rest, sep);
      assert s[1..] == p[1..] + [sep] + rest;
      assert [p[0]] + p[1..] == p;
    }
  }

  /** Splitting undoes joining when no part holds the separator. */
  lemma {:induction false} SplitJoin(parts: seq<string>, sep: char)
    requires parts != []
    requires forall p :: p in parts ==> sep !in p
    ensures Split(Join(parts, sep), sep) == parts
  {
    assert parts[0] in parts;
    if |parts| == 1 {
      SplitOne(parts[0], sep);
    } else {
      SplitJoin(parts[1..], sep);
      SplitCons(parts[0], Join(parts[1..], sep), sep);
      assert parts == [parts[0]] + parts[1..];
    }
  }

  /** Splitting a text that starts with `c`, given the parts of the rest. */
  function Prepend(c: char, sep: char, rest: seq<string>): seq<string>
    requires rest != []
  {
    if c == sep then [""] + rest else [[c] + rest[0]] + rest[1..]
  }

  lemma {:induction false} PrependAppend(c: char, sep: char, rest: seq<string>, more: seq<string>)
    requires rest != []
    ensures Prepend(c, sep, rest + more) == Prepend(c, sep, rest) + more
  {
    assert (rest + more)[0] == rest[0] && (rest + more)[1..] == rest[1..] + more;
  }

  lemma {:induction false} SplitPrepend(s: string, sep: char)
    requires s != ""
    ensures Split(s, sep) == Prepend(s[0], sep, Split(s[1..], sep))
  {}

  /** Splitting goes apart at a separator. */
  lemma {:induction false} SplitAt(a: string, b: string, sep: char)
    ensures Split(a + [sep] + b, sep) == Split(a, sep) + Split(b, sep)
  {
    var all := a + [sep] + b;
    SplitPrepend(all, sep);
    if a == "" {
      assert all[1..] == b;
    } else {
      SplitPrepend(a, sep);
      SplitAt(a[1..], b, sep);
      hide Split;
      hide Prepend;
      assert all[1..] == a[1..] + [sep] + b;
      PrependAppend(a[0], sep, Split(a[1..], sep), Split(b, sep));
    }
  }
}
