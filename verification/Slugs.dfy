/** Free text reduced to a safe name: delivery branch segments and the slugs of spec ids. */
module Slugs {
  import opened Text

  predicate Alnum(c: char) {
    'a' <= c <= 'z' || '0' <= c <= '9'
  }

  /** The characters of a name by their codes: the lower-case letters and the digits. */
  lemma {:induction false} AlnumCodes(c: char)
    ensures Alnum(c) <==> 97 <= c as int <= 122 || 48 <= c as int <= 57
  {}

  /** Letters and digits kept; every run of other characters becomes one dash. */
  function Dashed(s: string): string {
    if s == "" then ""
    else
      var out, c := Dashed(s[..|s| - 1]), s[|s| - 1];
      if Alnum(c) then out + [c]
      else if out != "" && out[|out| - 1] == '-' then out
      else out + "-"
  }

  /** `strings.Trim(s, cut)`. */
  function TrimSet(s: string, cut: set<char>): string {
    if s != "" && s[0] in cut then TrimSet(s[1..], cut)
    else if s != "" && s[|s| - 1] in cut then TrimSet(s[..|s| - 1], cut)
    else s
  }

  const BRANCH_CUT: set<char> := {'-', '.'}
  const SLUG_CUT: set<char> := {'-'}

  function Shortened(s: string, cut: set<char>, limit: nat): string {
    if |s| > limit then TrimSet(s[..limit], cut) else s
  }

  function SanitizeBranchSegment(s: string): string {
    Shortened(TrimSet(Dashed(Lower(Trim(s))), BRANCH_CUT), BRANCH_CUT, 60)
  }

  function Slugify(title: string): string {
    var s := TrimSet(Dashed(Lower(Trim(title))), SLUG_CUT);
    Shortened(if s == "" then "task" else s, SLUG_CUT, 48)
  }

  method SanitizeBranch(s: string) returns (out: string)
    ensures out == SanitizeBranchSegment(s)
  {
    var text, b, prevDash := Lower(Trim(s)), "", false;
    for i := 0 to |text|
      invariant b == Dashed(text[..i])
      invariant prevDash <==> b != "" && b[|b| - 1] == '-'
    {
      assert text[..i + 1][..i] == text[..i];
      var r := text[i];
      if Alnum(r) {
        b, prevDash := b + [r], false;
      } else if !prevDash {
        b, prevDash := b + "-", true;
      }
    }
    assert text[..|text|] == text;
    out := TrimSet(b, BRANCH_CUT);
    if |out| > 60 {
      out := TrimSet(out[..60], BRANCH_CUT);
    }
  }

  // ---- the normal form ----

  /** Letters, digits and single dashes. */
  predicate Dashing(s: string) {
    && (forall i :: 0 <= i < |s| ==> Alnum(s[i]) || s[i] == '-')
    && (forall i :: 0 < i < |s| && s[i] == '-' ==> s[i - 1] != '-')
  }

  /** Dashing, with no dash at either end. */
  predicate Normal(s: string) {
    Dashing(s) && (s != "" ==> s[0] != '-' && s[|s| - 1] != '-')
  }

  predicate HasAlnum(s: string) {
    exists i :: 0 <= i < |s| && Alnum(s[i])
  }

  lemma {:induction false} DashedSpec(s: string)
    ensures Dashing(Dashed(s))
    ensures HasAlnum(Dashed(s)) <==> HasAlnum(s)
  {
    if s == "" {
    } else {
      var n := |s| - 1;
      DashedSpec(s[..n]);
      if HasAlnum(s[..n]) {
        var i :| 0 <= i < n && Alnum(s[..n][i]);
        assert Alnum(s[i]);
        var j :| 0 <= j < |Dashed(s[..n])| && Alnum(Dashed(s[..n])[j]);
        assert Dashed(s)[j] == Dashed(s[..n])[j];
      }
      if Alnum(s[n]) {
        assert Dashed(s)[|Dashed(s)| - 1] == s[n];
      } else if HasAlnum(Dashed(s)) {
        var j :| 0 <= j < |Dashed(s)| && Alnum(Dashed(s)[j]);
        assert j < |Dashed(s[..n])| && Dashed(s[..n])[j] == Dashed(s)[j];
      }
    }
  }

  lemma {:induction false} DashedFixed(s: string)
    requires Dashing(s)
    ensures Dashed(s) == s
  {
    if s == "" {
    } else {
      var n := |s| - 1;
      DashedFixed(s[..n]);
      assert s == s[..n] + [s[n]];
    }
  }

  ghost predicate Cuts(cut: set<char>) {
    '-' in cut && forall c :: c in cut ==> !Alnum(c)
  }

  lemma {:induction false} TrimSetSpec(s: string, cut: set<char>)
    requires Dashing(s) && Cuts(cut)
    ensures Normal(TrimSet(s, cut)) && |TrimSet(s, cut)| <= |s|
    ensures HasAlnum(TrimSet(s, cut)) <==> HasAlnum(s)
    ensures Normal(s) ==> TrimSet(s, cut) == s
    decreases |s|
  {
    if s == "" {
    } else if s[0] in cut {
      assert s[0] == '-';
      TrimSetSpec(s[1..], cut);
      if HasAlnum(s) {
        var i :| 0 <= i < |s| && Alnum(s[i]);
        assert s[1..][i - 1] == s[i];
      }
    } else if s[|s| - 1] in cut {
      assert s[|s| - 1] == '-';
      TrimSetSpec(s[..|s| - 1], cut);
      if HasAlnum(s) {
        var i :| 0 <= i < |s| && Alnum(s[i]);
        assert s[..|s| - 1][i] == s[i];
      }
    }
  }

  lemma {:induction false} NormalNonEmpty(s: string)
    requires Normal(s)
    ensures HasAlnum(s) <==> s != ""
  {
    if s != "" {
      assert Alnum(s[0]);
    }
  }

  lemma {:induction false} ShortenedSpec(s: string, cut: set<char>, limit: nat)
    requires Normal(s) && Cuts(cut) && 0 < limit
    ensures Normal(Shortened(s, cut, limit)) && |Shortened(s, cut, limit)| <= limit
    ensures Shortened(s, cut, limit) == "" <==> s == ""
    ensures |s| <= limit ==> Shortened(s, cut, limit) == s
  {
    if |s| > limit {
      assert Dashing(s[..limit]);
      TrimSetSpec(s[..limit], cut);
      assert Alnum(s[..limit][0]);
      NormalNonEmpty(Shortened(s, cut, limit));
    }
  }

  /** Branch normal form: whatever the text, at most 60 characters of `[a-z0-9-]`, no dash leading,
      trailing or doubled, also after the cut; empty exactly when the text has no ASCII letter or digit. */
  lemma {:induction false} BranchNormalForm(s: string)
    ensures Normal(SanitizeBranchSegment(s)) && |SanitizeBranchSegment(s)| <= 60
    ensures SanitizeBranchSegment(s) == "" <==> !HasAlnum(Lower(Trim(s)))
  {
    var d := Dashed(Lower(Trim(s)));
    DashedSpec(Lower(Trim(s)));
    TrimSetSpec(d, BRANCH_CUT);
    NormalNonEmpty(TrimSet(d, BRANCH_CUT));
    ShortenedSpec(TrimSet(d, BRANCH_CUT), BRANCH_CUT, 60);
  }

  lemma {:induction false} NormalIsTrimmedLower(s: string)
    requires Normal(s)
    ensures Lower(Trim(s)) == s
  {
    TrimSpec(s);
    LowerSpec(s);
  }

  /** Sanitizing leaves a name in normal form alone, and so is idempotent. */
  lemma {:induction false} BranchIdempotent(s: string)
    ensures Normal(s) && |s| <= 60 ==> SanitizeBranchSegment(s) == s
    ensures SanitizeBranchSegment(SanitizeBranchSegment(s)) == SanitizeBranchSegment(s)
  {
    BranchNormalForm(s);
    BranchFixed(SanitizeBranchSegment(s));
    if Normal(s) && |s| <= 60 {
      BranchFixed(s);
    }
  }

  lemma {:induction false} BranchFixed(s: string)
    requires Normal(s) && |s| <= 60
    ensures SanitizeBranchSegment(s) == s
  {
    NormalIsTrimmedLower(s);
    DashedFixed(s);
    TrimSetSpec(s, BRANCH_CUT);
  }

  /** Slugs are normal names of 1 to 48 characters, and slugging a slug changes nothing. */
  lemma {:induction false} SlugNormalForm(title: string)
    ensures Normal(Slugify(title)) && 1 <= |Slugify(title)| <= 48
    ensures Slugify(Slugify(title)) == Slugify(title)
  {
    var d := Dashed(Lower(Trim(title)));
    DashedSpec(Lower(Trim(title)));
    TrimSetSpec(d, SLUG_CUT);
    var s := TrimSet(d, SLUG_CUT);
    ShortenedSpec(if s == "" then "task" else s, SLUG_CUT, 48);
    var slug := Slugify(title);
    NormalIsTrimmedLower(slug);
    DashedFixed(slug);
    TrimSetSpec(slug, SLUG_CUT);
  }

  // ---- the words of a text ----

  predicate Word(w: string) {
    w != "" && forall i :: 0 <= i < |w| ==> Alnum(w[i])
  }

  /** The words of a text: its longest runs of letters and digits, in order. */
  function Words(s: string): (words: seq<string>)
    ensures forall k :: 0 <= k < |words| ==> Word(words[k])
    ensures s != "" && (Alnum(s[0]) || Alnum(s[|s| - 1])) ==> words != []
  {
    if s == "" then []
    else
      var n := |s| - 1;
      var front := Words(s[..n]);
      if !Alnum(s[n]) then front
      else if n > 0 && Alnum(s[n - 1]) then front[..|front| - 1] + [front[|front| - 1] + [s[n]]]
      else front + [[s[n]]]
  }

  lemma {:induction false} JoinSnoc(words: seq<string>, w: string)
    requires words != []
    ensures Join(words + [w], '-') == Join(words, '-') + "-" + w
  {
    if |words| == 1 {
      assert (words + [w])[1..] == [w];
    } else {
      JoinSnoc(words[1..], w);
      assert (words + [w])[1..] == words[1..] + [w];
    }
  }

  lemma {:induction false} JoinExtended(words: seq<string>, c: char)
    requires words != []
    ensures Join(words[..|words| - 1] + [words[|words| - 1] + [c]], '-') == Join(words, '-') + [c]
  {
    var n := |words| - 1;
    var front := words[..n];
    assert words == front + [words[n]];
    if n > 0 {
      JoinSnoc(front, words[n]);
      JoinSnoc(front, words[n] + [c]);
    }
  }

  lemma {:induction false} JoinEnds(words: seq<string>)
    requires words != [] && forall k :: 0 <= k < |words| ==> Word(words[k])
    ensures var j := Join(words, '-'); j != "" && Alnum(j[0]) && Alnum(j[|j| - 1])
  {
    if |words| == 1 {
      assert Word(words[0]);
    } else {
      JoinEnds(words[1..]);
      assert Word(words[0]);
    }
  }

  function Lead(s: string): string {
    if s != "" && !Alnum(s[0]) then "-" else ""
  }

  function Tail(s: string): string {
    if Words(s) != [] && !Alnum(s[|s| - 1]) then "-" else ""
  }

  predicate DashedAsWords(s: string) {
    Dashed(s) == Lead(s) + Join(Words(s), '-') + Tail(s)
  }

  lemma {:induction false} DashedNoWord(s: string)
    requires s != "" && Words(s[..|s| - 1]) == [] && DashedAsWords(s[..|s| - 1])
    ensures DashedAsWords(s)
  {
    hide Alnum;
    hide Word;
    hide Join;
    var n := |s| - 1;
    var front := s[..n];
    NoWords();
    OneWord([s[n]]);
    if n == 0 {
      assert front == "" && Dashed(front) == "";
    } else {
      assert front[0] == s[0] && front[n - 1] == s[n - 1];
      assert Dashed(front) == "-";
    }
    assert Words(s) == if Alnum(s[n]) then [[s[n]]] else [];
    assert Dashed(s) == Dashed(front) + if Alnum(s[n]) then [s[n]] else if n == 0 then "-" else "";
  }

  lemma {:induction false} WordsNext(s: string)
    requires s != "" && Words(s[..|s| - 1]) != []
    ensures var n, words := |s| - 1, Words(s[..|s| - 1]);
            && n > 0 && Words(s) != []
            && (!Alnum(s[n]) ==> Words(s) == words)
            && (Alnum(s[n]) && Alnum(s[n - 1]) ==>
                  Words(s) == words[..|words| - 1] + [words[|words| - 1] + [s[n]]])
            && (Alnum(s[n]) && !Alnum(s[n - 1]) ==> Words(s) == words + [[s[n]]])
            && Lead(s) == Lead(s[..n]) && Tail(s) == (if Alnum(s[n]) then "" else "-")
            && Tail(s[..n]) == (if Alnum(s[n - 1]) then "" else "-")
  {
    hide Alnum;
    hide Word;
  }

  lemma {:induction false} DashedNext(s: string)
    requires s != "" && Alnum(s[|s| - 1])
    ensures Dashed(s) == Dashed(s[..|s| - 1]) + [s[|s| - 1]]
  {}

  lemma {:induction false} DashedMoreWords(s: string)
    requires s != "" && Words(s[..|s| - 1]) != [] && DashedAsWords(s[..|s| - 1])
    ensures DashedAsWords(s)
  {
    hide Word;
    hide Words;
    hide Dashed;
    hide Join;
    hide Lead;
    hide Tail;
    hide Alnum;
    var n := |s| - 1;
    var words := Words(s[..n]);
    var joined := Lead(s) + Join(words, '-');
    WordsNext(s);
    if !Alnum(s[n]) {
      EndsInWord(Lead(s), words);
      DashBehind(s, joined);
    } else if Alnum(s[n - 1]) {
      DashedNext(s);
      JoinExtended(words, s[n]);
      assert joined + "" == joined;
      assert joined + [s[n]] == Lead(s) + (Join(words, '-') + [s[n]]) + "";
    } else {
      DashedNext(s);
      JoinSnoc(words, [s[n]]);
      assert joined + "-" + [s[n]] == Lead(s) + (Join(words, '-') + "-" + [s[n]]) + "";
    }
  }

  lemma {:induction false} EndsInWord(lead: string, words: seq<string>)
    requires words != [] && forall k :: 0 <= k < |words| ==> Word(words[k])
    ensures var joined := lead + Join(words, '-'); joined != "" && joined[|joined| - 1] != '-'
  {
    JoinEnds(words);
  }

  lemma {:induction false} DashBehind(s: string, joined: string)
    requires s != "" && !Alnum(s[|s| - 1]) && joined != "" && joined[|joined| - 1] != '-'
    requires Dashed(s[..|s| - 1]) == joined || Dashed(s[..|s| - 1]) == joined + "-"
    ensures Dashed(s) == joined + "-"
  {}

  lemma {:induction false} DashedWords(s: string)
    ensures DashedAsWords(s)
  {
    hide Words;
    hide DashedAsWords;
    if s == "" {
      EmptyDashed();
    } else {
      DashedWords(s[..|s| - 1]);
      if Words(s[..|s| - 1]) == [] {
        DashedNoWord(s);
      } else {
        DashedMoreWords(s);
      }
    }
  }

  lemma {:induction false} EmptyDashed()
    ensures DashedAsWords("")
  {}

  lemma {:induction false} DashAlnum()
    ensures !Alnum('-')
  {}

  lemma {:induction false} NoWords()
    ensures Join([], '-') == ""
  {}

  lemma {:induction false} OneWord(w: string)
    ensures Join([w], '-') == w
  {}

  lemma {:induction false} TrimSetBack(s: string, cut: set<char>)
    requires s != "" && Normal(s) && Cuts(cut)
    ensures TrimSet(s + "-", cut) == s
  {
    assert Alnum(s[0]) && (s + "-")[0] == s[0];
    assert (s + "-")[..|s|] == s;
    TrimSetSpec(s, cut);
  }

  lemma {:induction false} MiddleNormal(d: string, m: nat, j: string)
    requires Dashing(d) && m + |j| <= |d| && d[m..m + |j|] == j
    requires j != "" ==> j[0] != '-' && j[|j| - 1] != '-'
    ensures Normal(j)
  {
    hide Alnum;
  }

  lemma {:induction false} TrimSetAround(lead: string, j: string, tail: string, cut: set<char>)
    requires Normal(j) && Cuts(cut) && lead in ["", "-"] && tail in ["", "-"] && (j == "" ==> tail == "")
    ensures TrimSet(lead + j + tail, cut) == j
  {
    TrimSetSpec(j, cut);
    hide Normal;
    if j != "" {
      TrimSetBack(j, cut);
    }
    assert lead == "-" ==> (lead + j + tail)[1..] == j + tail;
    assert lead == "" ==> lead + j + tail == j + tail;
    assert j + "" == j;
  }

  lemma {:induction false} TrimmedWords(s: string, cut: set<char>)
    requires Cuts(cut)
    ensures var j := Join(Words(s), '-'); Normal(j) && TrimSet(Dashed(s), cut) == j
  {
    hide Alnum;
    hide Normal;
    hide Dashing;
    hide TrimSet;
    hide Join;
    hide Dashed;
    var words, d := Words(s), Dashed(s);
    var j := Join(words, '-');
    DashedSpec(s);
    DashedWords(s);
    DashAlnum();
    NoWords();
    if words != [] {
      JoinEnds(words);
    }
    MiddleNormal(d, |Lead(s)|, j);
    TrimSetAround(Lead(s), j, Tail(s), cut);
  }

  /** A name cut to a length, and not behind a dash. */
  function CutAt(s: string, limit: nat): string
    requires limit > 0
  {
    if |s| <= limit then s else if s[limit - 1] == '-' then s[..limit - 1] else s[..limit]
  }

  lemma {:induction false} ShortenedCuts(s: string, cut: set<char>, limit: nat)
    requires Normal(s) && Cuts(cut) && limit > 1
    ensures Shortened(s, cut, limit) == CutAt(s, limit)
  {
    if |s| > limit {
      var front := s[..limit - 1];
      assert Alnum(s[0]);
      if s[limit - 1] == '-' {
        assert Normal(front);
        assert s[..limit] == front + "-";
        TrimSetBack(front, cut);
      } else {
        assert Normal(s[..limit]);
        TrimSetSpec(s[..limit], cut);
      }
    }
  }

  /** A branch segment is the words of the lower-cased text, joined by dashes and cut to 60 characters. */
  lemma {:induction false} BranchIsWords(s: string)
    ensures SanitizeBranchSegment(s) == CutAt(Join(Words(Lower(Trim(s))), '-'), 60)
  {
    TrimmedWords(Lower(Trim(s)), BRANCH_CUT);
    ShortenedCuts(Join(Words(Lower(Trim(s))), '-'), BRANCH_CUT, 60);
  }

  /** A slug is the words of the lower-cased title, or `task` where there are none, cut to 48 characters. */
  lemma {:induction false} SlugIsWords(title: string)
    ensures var words := Words(Lower(Trim(title)));
            Slugify(title) == if words == [] then "task" else CutAt(Join(words, '-'), 48)
  {
    var words := Words(Lower(Trim(title)));
    TrimmedWords(Lower(Trim(title)), SLUG_CUT);
    if words != [] {
      JoinEnds(words);
    }
    ShortenedCuts(Join(words, '-'), SLUG_CUT, 48);
  }

  // ---- deliveryBranchName ----

  /** `prefix` is the configured namespace with its outer slashes trimmed. */
  function DeliveryBranchName(specId: string, requested: string, prefix: string): string {
    var wanted := SanitizeBranchSegment(requested);
    if wanted != "" then wanted
    else
      var seg := SanitizeBranchSegment(specId);
      var name := if seg == "" then "task" else seg;
      if prefix == "" then name else prefix + "/" + name
  }

  /** A segment a branch may end in. */
  predicate BranchSegment(seg: string) {
    seg != "" && |seg| <= 60 && Normal(seg)
  }

  /** A delivery branch is never empty: it is the requested name in normal form if that leaves anything,
      and otherwise a segment in normal form, under the prefix when there is one. */
  lemma {:induction false} DeliveryBranchNamed(specId: string, requested: string, prefix: string)
    ensures HasAlnum(Lower(Trim(requested))) ==> BranchSegment(DeliveryBranchName(specId, requested, prefix))
    ensures !HasAlnum(Lower(Trim(requested))) ==>
              exists seg: string ::
                BranchSegment(seg)
                && DeliveryBranchName(specId, requested, prefix) == if prefix == "" then seg else prefix + "/" + seg
  {
    hide SanitizeBranchSegment;
    hide HasAlnum;
    BranchNormalForm(requested);
    BranchNormalForm(specId);
    var seg := SanitizeBranchSegment(specId);
    assert BranchSegment(if seg == "" then "task" else seg);
  }

  /** A requested name already in normal form is honoured as it is, so asking twice for what was given
      changes nothing. */
  lemma {:induction false} RequestHonoured(specId: string, requested: string, prefix: string)
    requires BranchSegment(requested)
    ensures DeliveryBranchName(specId, requested, prefix) == requested
  {
    BranchFixed(requested);
  }
}
