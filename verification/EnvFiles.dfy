/** Handing the resolved model endpoints to the runner: written as numbered lines of a sorted env file by
    the control plane, read back by the runner. */
module EnvFiles {
  import opened Options
  import opened Text
  import opened Decimal
  import opened Sorting

  datatype Endpoint = Endpoint(endpointId: string, kind: string, transport: string, provider: string,
                               baseUrl: string, model: string, cliCommand: string, cliArgs: seq<string>,
                               apiKey: string)

  datatype ModelConfig = ModelConfig(provider: string, model: string, baseUrl: string, apiKey: string,
                                     endpoints: seq<Endpoint>)

  // ---- writing ----

  const PREFIX := "OPM_MODEL_"
  const COUNT_KEY := "OPM_MODEL_CANDIDATE_COUNT"

  function EnvKey(i: nat, suffix: string): string {
    PREFIX + Print(i) + "_" + suffix
  }

  function Line(key: string, value: string): string {
    key + "=" + value
  }

  /** `sanitizeEnvValue`. */
  function Sanitize(v: string): string {
    Drop(Drop(v, '\r'), '\n')
  }

  /** The settings of an endpoint, in the order they are written. */
  function Settings(c: Endpoint): seq<(string, string)> {
    [("ENDPOINT_ID", c.endpointId), ("KIND", c.kind), ("TRANSPORT", c.transport), ("PROVIDER", c.provider),
     ("BASE_URL", c.baseUrl), ("MODEL", c.model), ("CLI_COMMAND", c.cliCommand),
     ("CLI_ARGS", Join(c.cliArgs, ' ')), ("API_KEY", c.apiKey)]
  }

  function SettingLine(i: nat, setting: (string, string)): seq<string> {
    if Trim(setting.1) == "" then [] else [Line(EnvKey(i, setting.0), Sanitize(setting.1))]
  }

  function SettingLines(i: nat, settings: seq<(string, string)>): seq<string> {
    if settings == [] then []
    else SettingLines(i, settings[..|settings| - 1]) + SettingLine(i, settings[|settings| - 1])
  }

  function EndpointLines(endpoints: seq<Endpoint>): seq<string> {
    if endpoints == [] then []
    else EndpointLines(endpoints[..|endpoints| - 1]) + SettingLines(|endpoints|, Settings(endpoints[|endpoints| - 1]))
  }

  function CandidateEnvLines(cfg: ModelConfig): seq<string> {
    if cfg.endpoints == [] then []
    else [Line(COUNT_KEY, Print(|cfg.endpoints|))] + EndpointLines(cfg.endpoints)
  }

  function Optional(key: string, value: string): seq<string> {
    if Trim(value) == "" then [] else [Line(key, Trim(value))]
  }

  /** The single-model lines, kept for runners that predate failover; `bin` is the host's agent path. */
  function SingleLines(cfg: ModelConfig, bin: string): seq<string> {
    [Line("OPM_MODEL_API_KEY", cfg.apiKey), Line("CURSOR_API_KEY", cfg.apiKey)]
    + Optional("OPM_MODEL", cfg.model) + Optional("OPM_MODEL_PROVIDER", cfg.provider)
    + Optional("OPM_MODEL_BASE_URL", cfg.baseUrl)
    + if bin == "" then [] else [Line("OPM_CURSOR_AGENT_BIN", bin)]
  }

  function EnvFile(cfg: ModelConfig, bin: string): string {
    Join(Sort(SingleLines(cfg, bin) + CandidateEnvLines(cfg), StringLe), '\n') + "\n"
  }

  method WriteCandidateEnvLines(cfg: ModelConfig) returns (out: seq<string>)
    ensures out == CandidateEnvLines(cfg)
  {
    hide SettingLines;
    hide Settings;
    hide Print;
    if |cfg.endpoints| == 0 {
      return [];
    }
    var count := Line(COUNT_KEY, Print(|cfg.endpoints|));
    out := [count];
    for i := 0 to |cfg.endpoints|
      invariant out == [count] + EndpointLines(cfg.endpoints[..i])
    {
      assert cfg.endpoints[..i + 1][..i] == cfg.endpoints[..i];
      var lines := WriteSettings(i + 1, Settings(cfg.endpoints[i]));
      out := out + lines;
    }
    assert cfg.endpoints[..|cfg.endpoints|] == cfg.endpoints;
  }

  method WriteSettings(i: nat, settings: seq<(string, string)>) returns (out: seq<string>)
    ensures out == SettingLines(i, settings)
  {
    out := [];
    for k := 0 to |settings|
      invariant out == SettingLines(i, settings[..k])
    {
      assert settings[..k + 1][..k] == settings[..k];
      var value := settings[k].1;
      if Trim(value) != "" {
        out := out + [Line(EnvKey(i, settings[k].0), Sanitize(value))];
      }
    }
    assert settings[..|settings|] == settings;
  }

  // ---- reading ----

  function IndexOf(s: string, c: char): (i: nat)
    ensures i <= |s|
    ensures i < |s| ==> s[i] == c
    ensures c !in s[..i]
  {
    if s == "" || s[0] == c then 0 else 1 + IndexOf(s[1..], c)
  }

  /** The value a list of lines gives a variable: the text after the first `=` of the last line that
      starts with its name, or nothing. */
  function Getenv(lines: seq<string>, key: string): string {
    if lines == [] then ""
    else
      var last := lines[|lines| - 1];
      var cut := IndexOf(last, '=');
      if cut < |last| && last[..cut] == key then last[cut + 1..] else Getenv(lines[..|lines| - 1], key)
  }

  function ParseEnvFile(text: string): seq<string> {
    Split(text, '\n')
  }

  datatype Candidate = Candidate(index: nat, endpointId: string, kind: string, transport: string, provider: string,
                                 baseUrl: string, model: string, cliCommand: string, cliArgs: seq<string>,
                                 apiKey: string)

  /** `strings.TrimRight(s, "/")`. */
  function TrimSlashes(s: string): string {
    if s != "" && s[|s| - 1] == '/' then TrimSlashes(s[..|s| - 1]) else s
  }

  /** The first run of non-blanks. */
  function Token(s: string): string {
    if s == "" || IsSpace(s[0]) then "" else [s[0]] + Token(s[1..])
  }

  lemma {:induction false} TokenPrefix(s: string)
    ensures Token(s) <= s
    ensures s != "" && !IsSpace(s[0]) ==> Token(s) != ""
  {
    if s == "" || IsSpace(s[0]) {
    } else {
      TokenPrefix(s[1..]);
    }
  }

  lemma {:induction false} TrimLeftShorter(s: string)
    ensures |TrimLeft(s)| <= |s|
  {
    if s == "" || !IsSpace(s[0]) {
    } else {
      TrimLeftShorter(s[1..]);
    }
  }

  /** `strings.Fields`. */
  function Words(s: string): seq<string>
    decreases |s|
  {
    var t := TrimLeft(s);
    TrimLeftShorter(s);
    TrimLeftSpec(s);
    TokenPrefix(t);
    if t == "" then [] else [Token(t)] + Words(t[|Token(t)|..])
  }

  const MAX_INT: int := 0x7FFF_FFFF_FFFF_FFFF

  // A candidate takes 160 bytes, and 2^48 bytes is the largest allocation.
  const MAX_CANDIDATES: int := 0x1_0000_0000_0000 / 160

  /** `strconv.Atoi` with its error ignored: an optional sign and digits, held within 64 bits; anything else is 0. */
  function ReadCount(s: string): int {
    var digits := if s != "" && (s[0] == '-' || s[0] == '+') then s[1..] else s;
    if digits == "" || !AllDigits(digits) then 0
    else
      var magnitude: int := Value(digits);
      if s[0] == '-' then if magnitude > MAX_INT then -MAX_INT - 1 else -magnitude
      else if magnitude > MAX_INT then MAX_INT
      else magnitude
  }

  function ReadCandidate(env: seq<string>, i: nat): Candidate {
    Candidate(i,
              Trim(Getenv(env, EnvKey(i, "ENDPOINT_ID"))),
              Lower(Trim(Getenv(env, EnvKey(i, "KIND")))),
              Lower(Trim(Getenv(env, EnvKey(i, "TRANSPORT")))),
              Lower(Trim(Getenv(env, EnvKey(i, "PROVIDER")))),
              TrimSlashes(Trim(Getenv(env, EnvKey(i, "BASE_URL")))),
              Trim(Getenv(env, EnvKey(i, "MODEL"))),
              Trim(Getenv(env, EnvKey(i, "CLI_COMMAND"))),
              Words(Trim(Getenv(env, EnvKey(i, "CLI_ARGS")))),
              Trim(Getenv(env, EnvKey(i, "API_KEY"))))
  }

  /** A candidate without a key is dropped. */
  function ReadKeyed(env: seq<string>, i: nat): seq<Candidate> {
    if Trim(Getenv(env, EnvKey(i, "API_KEY"))) == "" then [] else [ReadCandidate(env, i)]
  }

  /** The candidates numbered 1 to `n` that have a key. */
  function ReadCandidates(env: seq<string>, n: nat): seq<Candidate> {
    if n == 0 then [] else ReadCandidates(env, n - 1) + ReadKeyed(env, n)
  }

  function CountOf(env: seq<string>): int {
    ReadCount(Trim(Getenv(env, COUNT_KEY)))
  }

  /** The loaded list. A count that is negative or too large makes allocating the list panic, hence None. */
  function Loaded(env: seq<string>): Option<seq<Candidate>> {
    var n := CountOf(env);
    if n < 0 || n > MAX_CANDIDATES then None else Some(ReadCandidates(env, n))
  }

  method LoadCandidates(env: seq<string>) returns (loaded: Option<seq<Candidate>>)
    ensures loaded == Loaded(env)
  {
    hide ReadKeyed;
    hide Trim;
    hide Getenv;
    hide ReadCount;
    var n := ReadCount(Trim(Getenv(env, COUNT_KEY)));
    if n < 0 || n > MAX_CANDIDATES {
      return None;
    }
    var out: seq<Candidate> := [];
    for i := 0 to n
      invariant out == ReadCandidates(env, i)
    {
      var candidate := LoadCandidate(env, i + 1);
      out := out + candidate;
    }
    return Some(out);
  }

  method LoadCandidate(env: seq<string>, i: nat) returns (out: seq<Candidate>)
    ensures out == ReadKeyed(env, i)
  {
    var key := Trim(Getenv(env, EnvKey(i, "API_KEY")));
    if key == "" {
      return [];
    }
    return [ReadCandidate(env, i)];
  }

  /** All slashes at the end are cut off, and no other. */
  lemma {:induction false} TrimSlashesSpec(s: string)
    ensures TrimSlashes(s) <= s && (forall c :: c in s[|TrimSlashes(s)|..] ==> c == '/')
    ensures TrimSlashes(s) != "" ==> TrimSlashes(s)[|TrimSlashes(s)| - 1] != '/'
  {
    if s == "" || s[|s| - 1] != '/' {
    } else {
      TrimSlashesSpec(s[..|s| - 1]);
      var t := TrimSlashes(s);
      assert s[|t|..] == s[..|s| - 1][|t|..] + [s[|s| - 1]];
    }
  }

  /** The words of a text: past the blanks, the first run of non-blanks, and then those of the rest; none in a text of
      blanks. */
  lemma {:induction false} WordsByRuns(gap: string, w: string, rest: string)
    requires (forall i :: 0 <= i < |gap| ==> IsSpace(gap[i])) && (forall i :: 0 <= i < |w| ==> !IsSpace(w[i]))
    requires rest == "" || IsSpace(rest[0])
    ensures w != "" ==> Words(gap + (w + rest)) == [w] + Words(rest)
    ensures Words(gap) == []
  {
    SkipsGap(gap, "");
    assert gap + "" == gap;
    if w != "" {
      SkipsGap(gap, w + rest);
      TokenOfWord(w, rest);
      assert (w + rest)[|w|..] == rest;
    }
  }

  lemma {:induction false} SkipsGap(gap: string, s: string)
    requires (forall i :: 0 <= i < |gap| ==> IsSpace(gap[i])) && (s == "" || !IsSpace(s[0]))
    ensures TrimLeft(gap + s) == TrimLeft(s)
  {
    if gap == "" {
      assert gap + s == s;
    } else {
      SkipsGap(gap[1..], s);
      assert (gap + s)[1..] == gap[1..] + s;
    }
  }

  /** `strconv.Atoi` by the shape of the text: sign and digits give the number, held within 64 bits; anything else 0. */
  lemma {:induction false} CountByShape(sign: string, digits: string)
    requires (sign == "" || sign == "+" || sign == "-") && digits != "" && AllDigits(digits)
    ensures var magnitude: int := Value(digits);
            var n := if sign == "-" then -magnitude else magnitude;
            ReadCount(sign + digits) ==
            if n > 0x7FFF_FFFF_FFFF_FFFF then 0x7FFF_FFFF_FFFF_FFFF
            else if n < -0x8000_0000_0000_0000 then -0x8000_0000_0000_0000
            else n
  {
    assert IsDigit(digits[0]);
    assert sign == "" ==> sign + digits == digits;
    assert sign != "" ==> (sign + digits)[1..] == digits && (sign + digits)[0] == sign[0];
  }

  lemma {:induction false} CountOfOther(s: string)
    requires forall sign, digits: string :: sign in ["", "+", "-"] && s == sign + digits ==>
               digits == "" || !AllDigits(digits)
    ensures ReadCount(s) == 0
  {
    assert s == "" + s;
    assert s != "" ==> s == [s[0]] + s[1..];
    if s != "" && s[0] == '-' {
      assert s == "-" + s[1..];
    } else if s != "" && s[0] == '+' {
      assert s == "+" + s[1..];
    }
  }

  // ---- the names of the variables ----

  lemma {:induction false} PrintPlain(i: nat)
    ensures Print(i) != "" && IsDigit(Print(i)[0]) && '=' !in Print(i)
  {
    ValuePrint(i);
    assert IsDigit(Print(i)[0]);
  }

  lemma {:induction false} NotInThree(a: string, b: string, c: string, x: char)
    requires x !in a && x !in b && x !in c
    ensures x !in a + b + c
  {}

  lemma {:induction false} EnvKeyParts(i: nat, suffix: string)
    ensures |EnvKey(i, suffix)| >= 10 && EnvKey(i, suffix)[..10] == PREFIX
    ensures EnvKey(i, suffix)[10..] == Print(i) + ("_" + suffix)
  {
    hide Print;
    var rest := Print(i) + ("_" + suffix);
    assert EnvKey(i, suffix) == PREFIX + rest;
    assert |PREFIX| == 10;
  }

  lemma {:induction false} EnvKeyPlain(i: nat, suffix: string)
    requires '=' !in suffix
    ensures '=' !in EnvKey(i, suffix)
  {
    PrintPlain(i);
    hide Print;
    assert EnvKey(i, suffix) == PREFIX + Print(i) + ("_" + suffix);
    NotInThree(PREFIX, Print(i), "_" + suffix, '=');
  }

  lemma {:induction false} EnvKeyShape(i: nat, suffix: string)
    requires '=' !in suffix
    ensures '=' !in EnvKey(i, suffix)
    ensures |EnvKey(i, suffix)| > 10 && IsDigit(EnvKey(i, suffix)[10])
    ensures EnvKey(i, suffix)[..10] == PREFIX
    ensures Digits(EnvKey(i, suffix)[10..]) == Print(i)
    ensures EnvKey(i, suffix)[10..] == Print(i) + ("_" + suffix)
  {
    EnvKeyPlain(i, suffix);
    EnvKeyParts(i, suffix);
    PrintPlain(i);
    PrintDigits(i, suffix);
    hide EnvKey;
    hide Print;
    hide Digits;
    assert EnvKey(i, suffix)[10] == EnvKey(i, suffix)[10..][0];
  }

  lemma {:induction false} PrintDigits(i: nat, suffix: string)
    ensures Digits(Print(i) + ("_" + suffix)) == Print(i)
  {
    ValuePrint(i);
    DigitsOf(Print(i), "_" + suffix);
  }

  /** Numbered keys are distinct for distinct numbers or settings. */
  lemma {:induction false} EnvKeyInjective(i: nat, s: string, j: nat, t: string)
    requires '=' !in s && '=' !in t && EnvKey(i, s) == EnvKey(j, t)
    ensures i == j && s == t
  {
    EnvKeyShape(i, s);
    EnvKeyShape(j, t);
    ValuePrint(i);
    ValuePrint(j);
    var rest := EnvKey(i, s)[10..];
    assert rest[|Print(i)|..] == "_" + s && rest[|Print(i)|..] == "_" + t;
    assert ("_" + s)[1..] == s && ("_" + t)[1..] == t;
  }

  /** The names of the unnumbered variables. */
  predicate SingleKey(key: string) {
    key == "OPM_MODEL_API_KEY" || key == "CURSOR_API_KEY" || key == "OPM_MODEL" || key == "OPM_MODEL_PROVIDER"
    || key == "OPM_MODEL_BASE_URL" || key == "OPM_CURSOR_AGENT_BIN"
  }

  /** No numbered key is the count's or an unnumbered one. */
  lemma {:induction false} NoClash(i: nat, suffix: string)
    requires '=' !in suffix
    ensures !SingleKey(EnvKey(i, suffix)) && EnvKey(i, suffix) != COUNT_KEY
    ensures !SingleKey(COUNT_KEY)
  {
    EnvKeyShape(i, suffix);
    var key := EnvKey(i, suffix);
    assert "OPM_MODEL_API_KEY"[10] == 'A' && "OPM_MODEL_PROVIDER"[10] == 'P' && "OPM_MODEL_BASE_URL"[10] == 'B';
    assert COUNT_KEY[10] == 'C' && COUNT_KEY[0] == 'O';
    assert "CURSOR_API_KEY"[10] == '_' && "OPM_CURSOR_AGENT_BIN"[10] == '_';
    assert |"OPM_MODEL"| == 9 && |COUNT_KEY| == 25;
  }

  // ---- looking a variable up ----

  lemma {:induction false} IndexOfLine(key: string, value: string)
    requires '=' !in key
    ensures IndexOf(Line(key, value), '=') == |key|
    ensures Line(key, value)[..|key|] == key && Line(key, value)[|key| + 1..] == value
  {
    if key == "" {
    } else {
      IndexOfLine(key[1..], value);
      assert Line(key, value)[1..] == Line(key[1..], value);
    }
  }

  /** A line with this key. */
  predicate HasKey(line: string, key: string) {
    IndexOf(line, '=') < |line| && line[..IndexOf(line, '=')] == key
  }

  /** When all lines for a variable agree, the order of the lines does not matter. */
  lemma {:induction false} GetenvUnique(lines: seq<string>, key: string, value: string)
    requires '=' !in key && Line(key, value) in lines
    requires forall l :: l in lines && HasKey(l, key) ==> l == Line(key, value)
    ensures Getenv(lines, key) == value
  {
    var n := |lines| - 1;
    IndexOfLine(key, value);
    assert lines == lines[..n] + [lines[n]];
    if HasKey(lines[n], key) {
    } else {
      GetenvUnique(lines[..n], key, value);
    }
  }

  lemma {:induction false} GetenvNone(lines: seq<string>, key: string)
    requires forall l :: l in lines ==> !HasKey(l, key)
    ensures Getenv(lines, key) == ""
  {
    if lines == [] {
    } else {
      assert lines[|lines| - 1] in lines;
      GetenvNone(lines[..|lines| - 1], key);
    }
  }

  /** The last line that gives a variable wins. */
  lemma {:induction false} GetenvLast(front: seq<string>, key: string, value: string, rest: seq<string>)
    requires '=' !in key && forall l :: l in rest ==> !HasKey(l, key)
    ensures Getenv(front + [Line(key, value)] + rest, key) == value
  {
    var lines := front + [Line(key, value)] + rest;
    IndexOfLine(key, value);
    if rest == [] {
      assert lines[|lines| - 1] == Line(key, value);
    } else {
      var n := |rest| - 1;
      assert lines[|lines| - 1] == rest[n] && rest[n] in rest;
      assert lines[..|lines| - 1] == front + [Line(key, value)] + rest[..n];
      GetenvLast(front, key, value, rest[..n]);
    }
  }

  // ---- which lines are in the file ----

  /** The line a setting is written as, if it is written. */
  predicate Writes(i: nat, setting: (string, string), l: string) {
    Trim(setting.1) != "" && l == Line(EnvKey(i, setting.0), Sanitize(setting.1))
  }

  lemma {:induction false} SettingLinesHold(i: nat, settings: seq<(string, string)>, l: string)
    ensures l in SettingLines(i, settings) <==> exists setting :: setting in settings && Writes(i, setting, l)
  {
    if settings == [] {
    } else {
      var n := |settings| - 1;
      SettingLinesHold(i, settings[..n], l);
      assert settings == settings[..n] + [settings[n]];
      assert l in SettingLine(i, settings[n]) <==> Writes(i, settings[n], l);
      assert forall setting :: setting in settings <==> setting in settings[..n] || setting == settings[n];
    }
  }

  lemma {:induction false} EndpointOfLine(endpoints: seq<Endpoint>, l: string) returns (i: nat)
    requires l in EndpointLines(endpoints)
    ensures i < |endpoints| && l in SettingLines(i + 1, Settings(endpoints[i]))
  {
    hide Settings;
    hide SettingLines;
    var n := |endpoints| - 1;
    if l in EndpointLines(endpoints[..n]) {
      i := EndpointOfLine(endpoints[..n], l);
    } else {
      i := n;
    }
  }

  lemma {:induction false} LineOfSetting(i: nat, settings: seq<(string, string)>, setting: (string, string), l: string)
    requires setting in settings && Writes(i, setting, l)
    ensures l in SettingLines(i, settings)
  {
    SettingLinesHold(i, settings, l);
  }

  lemma {:induction false} LineOfEndpoint(endpoints: seq<Endpoint>, i: nat, l: string)
    requires i < |endpoints| && l in SettingLines(i + 1, Settings(endpoints[i]))
    ensures l in EndpointLines(endpoints)
  {
    var n := |endpoints| - 1;
    if i == n {
    } else {
      LineOfEndpoint(endpoints[..n], i, l);
    }
  }

  /** No line break, which would start a line of its own. */
  predicate OneLine(s: string) {
    '\n' !in s
  }

  predicate SinglesOneLine(cfg: ModelConfig, bin: string) {
    OneLine(cfg.apiKey) && OneLine(Trim(cfg.model)) && OneLine(Trim(cfg.provider)) && OneLine(Trim(cfg.baseUrl))
    && OneLine(bin)
  }

  lemma {:induction false} SingleLinesKeys(cfg: ModelConfig, bin: string, l: string)
    requires l in SingleLines(cfg, bin)
    ensures exists key: string, value: string ::
              SingleKey(key) && l == Line(key, value) && (SinglesOneLine(cfg, bin) ==> OneLine(value))
  {
    hide OneLine;
    hide TrimLeft;
    hide TrimRight;
    if l == Line("OPM_MODEL_API_KEY", cfg.apiKey) {
    } else if l == Line("CURSOR_API_KEY", cfg.apiKey) {
    } else if l == Line("OPM_MODEL", Trim(cfg.model)) {
    } else if l == Line("OPM_MODEL_PROVIDER", Trim(cfg.provider)) {
    } else if l == Line("OPM_MODEL_BASE_URL", Trim(cfg.baseUrl)) {
    } else {
      assert l == Line("OPM_CURSOR_AGENT_BIN", bin);
    }
  }

  lemma {:induction false} KeyOfLine(key: string, value: string, wanted: string)
    requires '=' !in key
    ensures HasKey(Line(key, value), wanted) <==> key == wanted
  {
    IndexOfLine(key, value);
  }

  predicate Suffix(s: string) {
    s == "ENDPOINT_ID" || s == "KIND" || s == "TRANSPORT" || s == "PROVIDER" || s == "BASE_URL" || s == "MODEL"
    || s == "CLI_COMMAND" || s == "CLI_ARGS" || s == "API_KEY"
  }

  lemma {:induction false} SettingsShape(c: Endpoint)
    ensures |Settings(c)| == 9
    ensures forall k :: 0 <= k < 9 ==> Suffix(Settings(c)[k].0) && '=' !in Settings(c)[k].0
    ensures forall j, k :: 0 <= j < k < 9 ==> Settings(c)[j].0 != Settings(c)[k].0
  {
    assert |"ENDPOINT_ID"| == 11 && |"KIND"| == 4 && |"TRANSPORT"| == 9 && |"PROVIDER"| == 8 && |"BASE_URL"| == 8
           && |"MODEL"| == 5 && |"CLI_COMMAND"| == 11 && |"CLI_ARGS"| == 8 && |"API_KEY"| == 7;
    assert "ENDPOINT_ID"[0] == 'E' && "CLI_COMMAND"[0] == 'C' && "PROVIDER"[0] == 'P' && "BASE_URL"[0] == 'B'
           && "CLI_ARGS"[0] == 'C';
  }

  /** Every numbered line of the file comes from one setting of one endpoint. */
  lemma {:induction false} CandidateLineOrigin(cfg: ModelConfig, l: string, i: nat, suffix: string)
    requires l in CandidateEnvLines(cfg) && '=' !in suffix && HasKey(l, EnvKey(i, suffix))
    ensures 1 <= i <= |cfg.endpoints|
    ensures exists setting :: setting in Settings(cfg.endpoints[i - 1]) && Writes(i, setting, l) && setting.0 == suffix
  {
    hide Settings;
    hide SettingLines;
    hide EndpointLines;
    hide EnvKey;
    hide Sanitize;
    hide HasKey;
    hide Print;
    NoClash(i, suffix);
    CountKeyPlain();
    KeyOfLine(COUNT_KEY, Print(|cfg.endpoints|), EnvKey(i, suffix));
    var j := EndpointOfLine(cfg.endpoints, l);
    var settings := Settings(cfg.endpoints[j]);
    SettingLinesHold(j + 1, settings, l);
    var setting :| setting in settings && Writes(j + 1, setting, l);
    SettingPlain(cfg.endpoints[j], setting);
    EnvKeyPlain(j + 1, setting.0);
    KeyOfLine(EnvKey(j + 1, setting.0), Sanitize(setting.1), EnvKey(i, suffix));
    EnvKeyInjective(j + 1, setting.0, i, suffix);
  }

  lemma {:induction false} SamePlace(c: Endpoint, j: nat, k: nat)
    requires j < |Settings(c)| && k < |Settings(c)| && Settings(c)[j].0 == Settings(c)[k].0
    ensures j == k
  {
    SettingsShape(c);
  }

  lemma {:induction false} SettingUnique(c: Endpoint, s: (string, string), t: (string, string))
    requires s in Settings(c) && t in Settings(c) && s.0 == t.0
    ensures s == t
  {
    SettingsShape(c);
    var j :| 0 <= j < |Settings(c)| && Settings(c)[j] == s;
    var k :| 0 <= k < |Settings(c)| && Settings(c)[k] == t;
    SamePlace(c, j, k);
  }

  /** The line gives none of the variables that the runner asks for. */
  ghost predicate Foreign(cfg: ModelConfig, l: string) {
    && !HasKey(l, COUNT_KEY)
    && forall i, suffix :: 1 <= i <= |cfg.endpoints| && Suffix(suffix) ==> !HasKey(l, EnvKey(i, suffix))
  }

  /** All numbered lines and the count's, among others that do not matter, in any order. */
  ghost predicate FileLines(lines: seq<string>, cfg: ModelConfig) {
    && (forall l :: l in CandidateEnvLines(cfg) ==> l in lines)
    && (forall l :: l in lines && l !in CandidateEnvLines(cfg) ==> Foreign(cfg, l))
  }

  /** Exactly the lines of the file and the empty text after the last line break, in any order. */
  ghost predicate ExactLines(lines: seq<string>, cfg: ModelConfig, bin: string) {
    forall l :: l in lines <==> l == "" || l in SingleLines(cfg, bin) || l in CandidateEnvLines(cfg)
  }

  lemma {:induction false} SingleLineClear(cfg: ModelConfig, bin: string, l: string, key: string)
    requires l in SingleLines(cfg, bin) && !SingleKey(key)
    ensures !HasKey(l, key)
  {
    hide SingleLines;
    SingleLinesKeys(cfg, bin, l);
    var k: string, v: string :| SingleKey(k) && l == Line(k, v);
    KeyOfLine(k, v, key);
  }

  lemma {:induction false} SettingOfLine(lines: seq<string>, cfg: ModelConfig, l: string, i: nat,
                                         setting: (string, string))
    requires FileLines(lines, cfg) && l in lines && HasKey(l, EnvKey(i, setting.0))
    requires 1 <= i <= |cfg.endpoints| && setting in Settings(cfg.endpoints[i - 1])
    ensures Writes(i, setting, l)
  {
    var c := cfg.endpoints[i - 1];
    SettingPlain(c, setting);
    hide Settings;
    hide CandidateEnvLines;
    hide EnvKey;
    hide HasKey;
    assert l in CandidateEnvLines(cfg);
    CandidateLineOrigin(cfg, l, i, setting.0);
    var other :| other in Settings(c) && Writes(i, other, l) && other.0 == setting.0;
    SettingUnique(c, other, setting);
  }

  lemma {:induction false} EndpointLineOf(endpoints: seq<Endpoint>, i: nat, settings: seq<(string, string)>,
                                          setting: (string, string), l: string)
    requires i < |endpoints| && settings == Settings(endpoints[i]) && setting in settings && Writes(i + 1, setting, l)
    ensures l in EndpointLines(endpoints)
  {
    LineOfSetting(i + 1, settings, setting, l);
    LineOfEndpoint(endpoints, i, l);
  }

  lemma {:induction false} LineOfCandidate(cfg: ModelConfig, l: string)
    requires l in EndpointLines(cfg.endpoints)
    ensures l in CandidateEnvLines(cfg)
  {}

  lemma {:induction false} WrittenLine(cfg: ModelConfig, i: nat, setting: (string, string), l: string)
    requires 1 <= i <= |cfg.endpoints| && setting in Settings(cfg.endpoints[i - 1]) && Writes(i, setting, l)
    ensures l in CandidateEnvLines(cfg)
  {
    EndpointLineOf(cfg.endpoints, i - 1, Settings(cfg.endpoints[i - 1]), setting, l);
    LineOfCandidate(cfg, l);
  }

  lemma {:induction false} SettingPlain(c: Endpoint, setting: (string, string))
    requires setting in Settings(c)
    ensures Suffix(setting.0) && '=' !in setting.0
  {
    SettingsShape(c);
  }

  /** Whatever the order of the lines, a numbered variable reads as the sanitized setting of its endpoint,
      and as nothing when that is blank. */
  lemma {:induction false} ReadsSetting(lines: seq<string>, cfg: ModelConfig, i: nat, setting: (string, string))
    requires FileLines(lines, cfg)
    requires 1 <= i <= |cfg.endpoints| && setting in Settings(cfg.endpoints[i - 1])
    ensures Getenv(lines, EnvKey(i, setting.0)) == if Trim(setting.1) == "" then "" else Sanitize(setting.1)
  {
    var c, key := cfg.endpoints[i - 1], EnvKey(i, setting.0);
    SettingPlain(c, setting);
    EnvKeyShape(i, setting.0);
    forall l | l in lines && HasKey(l, key) ensures Writes(i, setting, l) {
      SettingOfLine(lines, cfg, l, i, setting);
    }
    if Trim(setting.1) == "" {
      GetenvNone(lines, key);
    } else {
      WrittenLine(cfg, i, setting, Line(key, Sanitize(setting.1)));
      GetenvUnique(lines, key, Sanitize(setting.1));
    }
  }

  lemma {:induction false} CountOfCandidates(cfg: ModelConfig, l: string)
    requires l in CandidateEnvLines(cfg) && HasKey(l, COUNT_KEY)
    ensures cfg.endpoints != [] && l == Line(COUNT_KEY, Print(|cfg.endpoints|))
  {
    if l in EndpointLines(cfg.endpoints) {
      NumberedLineClear(cfg, l);
    }
  }

  lemma {:induction false} CountLine(lines: seq<string>, cfg: ModelConfig, l: string)
    requires FileLines(lines, cfg) && l in lines && HasKey(l, COUNT_KEY)
    ensures cfg.endpoints != [] && l == Line(COUNT_KEY, Print(|cfg.endpoints|))
  {
    assert l in CandidateEnvLines(cfg);
    CountOfCandidates(cfg, l);
  }

  lemma {:induction false} ReadCountPrint(n: nat)
    ensures ReadCount(Trim(Print(n))) == if n <= MAX_INT then n else MAX_INT
  {
    ValuePrint(n);
    DigitsTrimmed(Print(n));
  }

  lemma {:induction false} ReadsCount(lines: seq<string>, cfg: ModelConfig)
    requires FileLines(lines, cfg)
    ensures CountOf(lines) == if |cfg.endpoints| <= MAX_INT then |cfg.endpoints| else MAX_INT
  {
    var n := |cfg.endpoints|;
    CountKeyPlain();
    forall l | l in lines && HasKey(l, COUNT_KEY) ensures cfg.endpoints != [] && l == Line(COUNT_KEY, Print(n)) {
      CountLine(lines, cfg, l);
    }
    if cfg.endpoints == [] {
      GetenvNone(lines, COUNT_KEY);
      TrimSpec("");
    } else {
      assert Line(COUNT_KEY, Print(n)) in CandidateEnvLines(cfg);
      hide CandidateEnvLines;
      hide HasKey;
      hide Print;
      hide ReadCount;
      GetenvUnique(lines, COUNT_KEY, Print(n));
      ReadCountPrint(n);
    }
  }

  lemma {:induction false} CountKeyPlain()
    ensures '=' !in COUNT_KEY
  {}

  lemma {:induction false} DigitsTrimmed(s: string)
    requires AllDigits(s)
    ensures Trim(s) == s
  {
    TrimSpec(s);
  }

  lemma {:induction false} NumberedLineClear(cfg: ModelConfig, l: string)
    requires l in EndpointLines(cfg.endpoints)
    ensures !HasKey(l, COUNT_KEY)
  {
    var j := EndpointOfLine(cfg.endpoints, l);
    SettingLinesHold(j + 1, Settings(cfg.endpoints[j]), l);
    var setting :| setting in Settings(cfg.endpoints[j]) && Writes(j + 1, setting, l);
    SettingsShape(cfg.endpoints[j]);
    EnvKeyShape(j + 1, setting.0);
    NoClash(j + 1, setting.0);
    KeyOfLine(EnvKey(j + 1, setting.0), Sanitize(setting.1), COUNT_KEY);
  }

  // ---- the round trip ----

  /** What the runner makes of an endpoint's settings. */
  function Seen(c: Endpoint, i: nat): Candidate {
    Candidate(i, Trim(Sanitize(c.endpointId)), Lower(Trim(Sanitize(c.kind))), Lower(Trim(Sanitize(c.transport))),
              Lower(Trim(Sanitize(c.provider))), TrimSlashes(Trim(Sanitize(c.baseUrl))), Trim(Sanitize(c.model)),
              Trim(Sanitize(c.cliCommand)), Words(Trim(Sanitize(Join(c.cliArgs, ' ')))), Trim(Sanitize(c.apiKey)))
  }

  predicate Keyed(c: Endpoint) {
    Trim(c.apiKey) != ""
  }

  /** The endpoints that have a key, in order, with their positions from 1. */
  function Usable(endpoints: seq<Endpoint>): seq<Candidate> {
    if endpoints == [] then []
    else
      var n := |endpoints|;
      Usable(endpoints[..n - 1]) + if Keyed(endpoints[n - 1]) then [Seen(endpoints[n - 1], n)] else []
  }

  lemma {:induction false} BlankSanitized(v: string)
    ensures Trim(Sanitize(v)) == "" <==> Trim(v) == ""
  {
    DropSpec(v, '\r');
    DropSpec(Drop(v, '\r'), '\n');
    TrimSpec(v);
    TrimSpec(Sanitize(v));
    if Trim(v) != "" {
      var c :| c in v && !IsSpace(c);
      assert c in Sanitize(v);
    }
    if Trim(v) == "" {
      forall c | c in Sanitize(v) ensures IsSpace(c) {}
    }
  }

  lemma {:induction false} ReadsTrimmed(lines: seq<string>, cfg: ModelConfig, i: nat, setting: (string, string))
    requires FileLines(lines, cfg)
    requires 1 <= i <= |cfg.endpoints| && setting in Settings(cfg.endpoints[i - 1])
    ensures Trim(Getenv(lines, EnvKey(i, setting.0))) == Trim(Sanitize(setting.1))
  {
    ReadsSetting(lines, cfg, i, setting);
    BlankSanitized(setting.1);
    TrimSpec("");
  }

  lemma {:induction false} ReadsEndpoint(lines: seq<string>, cfg: ModelConfig, i: nat)
    requires FileLines(lines, cfg) && 1 <= i <= |cfg.endpoints|
    ensures ReadCandidate(lines, i) == Seen(cfg.endpoints[i - 1], i)
  {
    var settings := Settings(cfg.endpoints[i - 1]);
    forall k | 0 <= k < 9 ensures Trim(Getenv(lines, EnvKey(i, settings[k].0))) == Trim(Sanitize(settings[k].1)) {
      ReadsTrimmed(lines, cfg, i, settings[k]);
    }
    assert settings[0].0 == "ENDPOINT_ID" && settings[1].0 == "KIND" && settings[2].0 == "TRANSPORT"
           && settings[3].0 == "PROVIDER" && settings[4].0 == "BASE_URL" && settings[5].0 == "MODEL"
           && settings[6].0 == "CLI_COMMAND" && settings[7].0 == "CLI_ARGS" && settings[8].0 == "API_KEY";
  }

  lemma {:induction false} ReadsKeyed(lines: seq<string>, cfg: ModelConfig, i: nat)
    requires FileLines(lines, cfg) && 1 <= i <= |cfg.endpoints|
    ensures ReadKeyed(lines, i) == if Keyed(cfg.endpoints[i - 1]) then [Seen(cfg.endpoints[i - 1], i)] else []
  {
    ReadsEndpoint(lines, cfg, i);
    BlankSanitized(cfg.endpoints[i - 1].apiKey);
    assert ReadCandidate(lines, i).apiKey == Trim(Getenv(lines, EnvKey(i, "API_KEY")));
  }

  lemma {:induction false} ReadsUsable(lines: seq<string>, cfg: ModelConfig, n: nat)
    requires FileLines(lines, cfg) && n <= |cfg.endpoints|
    ensures ReadCandidates(lines, n) == Usable(cfg.endpoints[..n])
  {
    hide ReadKeyed;
    hide Seen;
    hide FileLines;
    if n == 0 {
    } else {
      ReadsUsable(lines, cfg, n - 1);
      ReadsKeyed(lines, cfg, n);
      assert cfg.endpoints[..n][..n - 1] == cfg.endpoints[..n - 1];
    }
  }

  lemma {:induction false} LinesOneLine(cfg: ModelConfig, bin: string, l: string)
    requires SinglesOneLine(cfg, bin)
    requires l in SingleLines(cfg, bin) || l in CandidateEnvLines(cfg)
    ensures OneLine(l)
  {
    if l in SingleLines(cfg, bin) {
      SingleLinesKeys(cfg, bin, l);
      var key: string, value: string :| SingleKey(key) && l == Line(key, value) && OneLine(value);
      SingleKeyOneLine(key);
    } else if l in EndpointLines(cfg.endpoints) {
      EndpointLineOneLine(cfg.endpoints, l);
    } else {
      PrintOneLine(|cfg.endpoints|);
    }
  }

  lemma {:induction false} SingleKeyOneLine(key: string)
    requires SingleKey(key)
    ensures OneLine(key)
  {}

  lemma {:induction false} EndpointLineOneLine(endpoints: seq<Endpoint>, l: string)
    requires l in EndpointLines(endpoints)
    ensures OneLine(l)
  {
    var j := EndpointOfLine(endpoints, l);
    SettingLinesHold(j + 1, Settings(endpoints[j]), l);
    var setting :| setting in Settings(endpoints[j]) && Writes(j + 1, setting, l);
    SettingsShape(endpoints[j]);
    NumberedOneLine(j + 1, setting.0, setting.1);
  }

  lemma {:induction false} PrintOneLine(n: nat)
    ensures OneLine(Print(n)) && OneLine(Line(COUNT_KEY, Print(n)))
  {
    ValuePrint(n);
  }

  lemma {:induction false} NumberedOneLine(i: nat, suffix: string, value: string)
    requires Suffix(suffix)
    ensures OneLine(Line(EnvKey(i, suffix), Sanitize(value)))
  {
    PrintOneLine(i);
    DropSpec(Drop(value, '\r'), '\n');
    assert OneLine(PREFIX) && OneLine("_" + suffix);
  }

  lemma {:induction false} JoinTerminated(lines: seq<string>)
    requires lines != []
    ensures Join(lines + [""], '\n') == Join(lines, '\n') + "\n"
  {
    if |lines| == 1 {
    } else {
      JoinTerminated(lines[1..]);
      assert (lines + [""])[1..] == lines[1..] + [""];
    }
  }

  lemma {:induction false} BrokenLine(cfg: ModelConfig, bin: string) returns (l: string)
    requires !SinglesOneLine(cfg, bin)
    ensures l in SingleLines(cfg, bin) && !OneLine(l)
  {
    if !OneLine(cfg.apiKey) {
      l := Line("OPM_MODEL_API_KEY", cfg.apiKey);
    } else if !OneLine(Trim(cfg.model)) {
      l := Line("OPM_MODEL", Trim(cfg.model));
    } else if !OneLine(Trim(cfg.provider)) {
      l := Line("OPM_MODEL_PROVIDER", Trim(cfg.provider));
    } else if !OneLine(Trim(cfg.baseUrl)) {
      l := Line("OPM_MODEL_BASE_URL", Trim(cfg.baseUrl));
    } else {
      l := Line("OPM_CURSOR_AGENT_BIN", bin);
    }
  }

  lemma {:induction false} TextComesBack(lines: seq<string>)
    requires lines != [] && forall l :: l in lines ==> OneLine(l)
    ensures Split(Join(lines, '\n') + "\n", '\n') == lines + [""]
  {
    JoinTerminated(lines);
    assert forall l :: l in lines + [""] ==> OneLine(l);
    SplitJoin(lines + [""], '\n');
  }

  lemma {:induction false} SortedHolds(lines: seq<string>)
    ensures forall l :: l in Sort(lines, StringLe) <==> l in lines
    ensures |Sort(lines, StringLe)| == |lines|
  {
    SortPermutes(lines, StringLe);
  }

  lemma {:induction false} ParsesBack(cfg: ModelConfig, bin: string)
    requires SinglesOneLine(cfg, bin)
    ensures ExactLines(ParseEnvFile(EnvFile(cfg, bin)), cfg, bin)
  {
    assert Line("OPM_MODEL_API_KEY", cfg.apiKey) in SingleLines(cfg, bin);
    hide SingleLines;
    hide CandidateEnvLines;
    hide SinglesOneLine;
    hide Sort;
    hide Join;
    hide Split;
    var written := SingleLines(cfg, bin) + CandidateEnvLines(cfg);
    var lines := Sort(written, StringLe);
    SortedHolds(written);
    forall l | l in lines ensures OneLine(l) {
      LinesOneLine(cfg, bin, l);
    }
    TextComesBack(lines);
  }

  /** The file reads back as the lines that were written exactly if no unnumbered value has a line break inside:
      those are written as they are, while numbered values are rid of line breaks. */
  lemma {:induction false} LinesComeBack(cfg: ModelConfig, bin: string)
    ensures ExactLines(ParseEnvFile(EnvFile(cfg, bin)), cfg, bin) <==> SinglesOneLine(cfg, bin)
  {
    if SinglesOneLine(cfg, bin) {
      ParsesBack(cfg, bin);
    } else {
      var l := BrokenLine(cfg, bin);
      SplitParts(EnvFile(cfg, bin), '\n');
      assert l !in ParseEnvFile(EnvFile(cfg, bin));
    }
  }

  /** No line break in an unnumbered value starts a line that gives a variable the runner asks for. */
  ghost predicate SinglesForeign(cfg: ModelConfig, bin: string) {
    forall l, part :: l in SingleLines(cfg, bin) && part in Split(l, '\n') ==> Foreign(cfg, part)
  }

  /** In particular where there are no line breaks. */
  lemma {:induction false} OneLineForeign(cfg: ModelConfig, bin: string)
    requires SinglesOneLine(cfg, bin)
    ensures SinglesForeign(cfg, bin)
  {
    forall l, part | l in SingleLines(cfg, bin) && part in Split(l, '\n') ensures Foreign(cfg, part) {
      LinesOneLine(cfg, bin, l);
      SplitOne(l, '\n');
      SingleLineForeign(cfg, bin, l);
    }
  }

  lemma {:induction false} SuffixPlain(suffix: string)
    requires Suffix(suffix)
    ensures '=' !in suffix
  {}

  lemma {:induction false} SingleLineForeign(cfg: ModelConfig, bin: string, l: string)
    requires l in SingleLines(cfg, bin)
    ensures Foreign(cfg, l)
  {
    hide SingleLines;
    hide HasKey;
    hide EnvKey;
    NoClash(0, "");
    SingleLineClear(cfg, bin, l, COUNT_KEY);
    forall i, suffix | 1 <= i <= |cfg.endpoints| && Suffix(suffix) ensures !HasKey(l, EnvKey(i, suffix)) {
      SuffixPlain(suffix);
      NoClash(i, suffix);
      SingleLineClear(cfg, bin, l, EnvKey(i, suffix));
    }
  }

  /** The parts of joined texts are the parts of the texts. */
  lemma {:induction false} SplitJoined(texts: seq<string>, sep: char, part: string)
    requires texts != []
    ensures part in Split(Join(texts, sep), sep) <==> exists t :: t in texts && part in Split(t, sep)
  {
    if |texts| == 1 {
      assert texts[0] in texts;
    } else {
      SplitAt(texts[0], Join(texts[1..], sep), sep);
      SplitJoined(texts[1..], sep, part);
      assert texts == [texts[0]] + texts[1..];
      hide Split;
      hide Join;
    }
  }

  lemma {:induction false} CandidateLineWhole(cfg: ModelConfig, l: string)
    requires l in CandidateEnvLines(cfg)
    ensures Split(l, '\n') == [l]
  {
    if l in EndpointLines(cfg.endpoints) {
      EndpointLineOneLine(cfg.endpoints, l);
    } else {
      PrintOneLine(|cfg.endpoints|);
    }
    SplitOne(l, '\n');
  }

  lemma {:induction false} EmptyForeign(cfg: ModelConfig)
    ensures Foreign(cfg, "") && Split("", '\n') == [""]
  {}

  /** What is read back: the parts of the lines that were written, and the empty text. */
  lemma {:induction false} FilePart(cfg: ModelConfig, bin: string, part: string)
    ensures part in ParseEnvFile(EnvFile(cfg, bin)) <==>
              || part == "" || part in CandidateEnvLines(cfg)
              || exists l :: l in SingleLines(cfg, bin) && part in Split(l, '\n')
  {
    assert Line("OPM_MODEL_API_KEY", cfg.apiKey) in SingleLines(cfg, bin);
    hide SingleLines;
    hide CandidateEnvLines;
    hide Sort;
    hide Join;
    hide Split;
    var written := SingleLines(cfg, bin) + CandidateEnvLines(cfg);
    var lines := Sort(written, StringLe);
    var all := lines + [""];
    SortedHolds(written);
    JoinTerminated(lines);
    EmptyForeign(cfg);
    SplitJoined(all, '\n', part);
    forall l | l in CandidateEnvLines(cfg) ensures Split(l, '\n') == [l] {
      CandidateLineWhole(cfg, l);
    }
    assert forall t :: t in all <==> t in SingleLines(cfg, bin) || t in CandidateEnvLines(cfg) || t == "";
    if part in CandidateEnvLines(cfg) {
      assert part in Split(part, '\n');
    }
  }

  lemma {:induction false} FileParses(cfg: ModelConfig, bin: string)
    requires SinglesForeign(cfg, bin)
    ensures FileLines(ParseEnvFile(EnvFile(cfg, bin)), cfg)
  {
    hide SingleLines;
    hide CandidateEnvLines;
    hide EnvFile;
    hide ParseEnvFile;
    hide Split;
    hide Foreign;
    var env := ParseEnvFile(EnvFile(cfg, bin));
    forall l | l in CandidateEnvLines(cfg) ensures l in env {
      FilePart(cfg, bin, l);
    }
    forall part | part in env && part !in CandidateEnvLines(cfg) ensures Foreign(cfg, part) {
      FilePart(cfg, bin, part);
      EmptyForeign(cfg);
    }
  }

  // ---- the unnumbered variables, for runners that know no list ----

  /** The value of an unnumbered variable: the primary key under both its names, the model's settings, the agent's
      path. */
  function SingleValue(cfg: ModelConfig, bin: string, key: string): string
    requires SingleKey(key)
  {
    if key == "OPM_MODEL" then Trim(cfg.model)
    else if key == "OPM_MODEL_PROVIDER" then Trim(cfg.provider)
    else if key == "OPM_MODEL_BASE_URL" then Trim(cfg.baseUrl)
    else if key == "OPM_CURSOR_AGENT_BIN" then bin
    else cfg.apiKey
  }

  lemma {:induction false} SingleKeysDistinct()
    ensures |"OPM_MODEL"| == 9 && |"OPM_MODEL_PROVIDER"| == 18 && |"OPM_MODEL_BASE_URL"| == 18
            && |"OPM_CURSOR_AGENT_BIN"| == 20 && |"OPM_MODEL_API_KEY"| == 17 && |"CURSOR_API_KEY"| == 14
            && "OPM_MODEL_PROVIDER" != "OPM_MODEL_BASE_URL"
  {
    assert "OPM_MODEL_PROVIDER"[10] == 'P' && "OPM_MODEL_BASE_URL"[10] == 'B';
  }

  lemma {:induction false} SingleLineValue(cfg: ModelConfig, bin: string, l: string) returns (key: string)
    requires l in SingleLines(cfg, bin)
    ensures SingleKey(key) && l == Line(key, SingleValue(cfg, bin, key))
  {
    hide Trim;
    SingleKeysDistinct();
    if l == Line("OPM_MODEL", Trim(cfg.model)) {
      key := "OPM_MODEL";
    } else if l == Line("OPM_MODEL_PROVIDER", Trim(cfg.provider)) {
      key := "OPM_MODEL_PROVIDER";
    } else if l == Line("OPM_MODEL_BASE_URL", Trim(cfg.baseUrl)) {
      key := "OPM_MODEL_BASE_URL";
    } else if l == Line("OPM_CURSOR_AGENT_BIN", bin) {
      key := "OPM_CURSOR_AGENT_BIN";
    } else if l == Line("CURSOR_API_KEY", cfg.apiKey) {
      key := "CURSOR_API_KEY";
    } else {
      key := "OPM_MODEL_API_KEY";
    }
  }

  lemma {:induction false} SingleLineWritten(cfg: ModelConfig, bin: string, key: string)
    requires SingleKey(key) && SingleValue(cfg, bin, key) != ""
    ensures Line(key, SingleValue(cfg, bin, key)) in SingleLines(cfg, bin)
  {
    TrimSpec(cfg.model);
    TrimSpec(cfg.provider);
    TrimSpec(cfg.baseUrl);
    hide Trim;
    hide Line;
    SingleKeysDistinct();
  }

  lemma {:induction false} CandidateLineClear(cfg: ModelConfig, l: string, key: string)
    requires l in CandidateEnvLines(cfg) && SingleKey(key)
    ensures !HasKey(l, key)
  {
    if l in EndpointLines(cfg.endpoints) {
      EndpointLineClear(cfg.endpoints, l, key);
    } else {
      NoClash(0, "");
      CountKeyPlain();
      KeyOfLine(COUNT_KEY, Print(|cfg.endpoints|), key);
    }
  }

  lemma {:induction false} EndpointLineClear(endpoints: seq<Endpoint>, l: string, key: string)
    requires l in EndpointLines(endpoints) && SingleKey(key)
    ensures !HasKey(l, key)
  {
    hide Settings;
    hide SettingLines;
    hide EndpointLines;
    hide SingleKey;
    hide HasKey;
    hide EnvKey;
    hide Sanitize;
    hide Trim;
    var j := EndpointOfLine(endpoints, l);
    var c := endpoints[j];
    SettingLinesHold(j + 1, Settings(c), l);
    var setting :| setting in Settings(c) && Writes(j + 1, setting, l);
    SettingPlain(c, setting);
    EnvKeyPlain(j + 1, setting.0);
    NoClash(j + 1, setting.0);
    KeyOfLine(EnvKey(j + 1, setting.0), Sanitize(setting.1), key);
  }

  /** Where no unnumbered value has a line break, each unnumbered variable reads back as it was meant: the primary key
      under both its names, and model, provider, base url and agent path, blank where they are not given. */
  lemma {:induction false} SinglesComeBack(cfg: ModelConfig, bin: string, key: string)
    requires SinglesOneLine(cfg, bin) && SingleKey(key)
    ensures Getenv(ParseEnvFile(EnvFile(cfg, bin)), key) == SingleValue(cfg, bin, key)
  {
    var lines, value := ParseEnvFile(EnvFile(cfg, bin)), SingleValue(cfg, bin, key);
    ParsesBack(cfg, bin);
    SingleKeyOneLine(key);
    SinglePlain(key);
    forall l | l in lines && HasKey(l, key) ensures l == Line(key, value) && l in SingleLines(cfg, bin) {
      if l in CandidateEnvLines(cfg) {
        CandidateLineClear(cfg, l, key);
      } else {
        assert l != "";
        var k := SingleLineValue(cfg, bin, l);
        SinglePlain(k);
        KeyOfLine(k, SingleValue(cfg, bin, k), key);
      }
    }
    if exists l :: l in lines && HasKey(l, key) {
      GetenvUnique(lines, key, value);
    } else {
      GetenvNone(lines, key);
      if value != "" {
        SingleLineWritten(cfg, bin, key);
        KeyOfLine(key, value, key);
      }
    }
  }

  lemma {:induction false} SinglePlain(key: string)
    requires SingleKey(key)
    ensures '=' !in key
  {}

  // ---- exactly when the list comes back ----

  /** At this position an endpoint that has a key is within the count and its variables read as it was configured, and
      where there is none the count does not reach or no key is given. */
  predicate AgreesAt(env: seq<string>, endpoints: seq<Endpoint>, i: nat) {
    if 1 <= i <= |endpoints| && Keyed(endpoints[i - 1]) then
      i <= CountOf(env) && ReadCandidate(env, i) == Seen(endpoints[i - 1], i)
    else
      1 <= i <= CountOf(env) ==> ReadCandidate(env, i).apiKey == ""
  }

  predicate ValuesAgree(env: seq<string>, endpoints: seq<Endpoint>) {
    && 0 <= CountOf(env) <= MAX_CANDIDATES
    && (forall i: nat :: 1 <= i <= |endpoints| ==> AgreesAt(env, endpoints, i))
    && (forall i: nat :: |endpoints| < i <= CountOf(env) ==> AgreesAt(env, endpoints, i))
  }

  lemma {:induction false} ReadHold(env: seq<string>, n: nat, c: Candidate)
    ensures c in ReadCandidates(env, n) <==>
              1 <= c.index <= n && c == ReadCandidate(env, c.index) && c.apiKey != ""
  {
    hide Trim;
    hide Getenv;
    if n == 0 {
    } else {
      ReadHold(env, n - 1, c);
      assert c in ReadKeyed(env, n) <==> c == ReadCandidate(env, n) && c.apiKey != "";
    }
  }

  lemma {:induction false} UsableHold(endpoints: seq<Endpoint>, c: Candidate)
    ensures c in Usable(endpoints) <==> FromList(c, endpoints)
  {
    hide Seen;
    hide Keyed;
    if endpoints == [] {
    } else {
      var n := |endpoints| - 1;
      UsableHold(endpoints[..n], c);
      SeenKeyed(endpoints[n], n + 1);
    }
  }

  /** Endpoints without a key behind the others do not matter. */
  lemma {:induction false} UsableFront(endpoints: seq<Endpoint>, m: nat)
    requires m <= |endpoints| && forall i :: m <= i < |endpoints| ==> !Keyed(endpoints[i])
    ensures Usable(endpoints) == Usable(endpoints[..m])
  {
    if m == |endpoints| {
      assert endpoints[..m] == endpoints;
    } else {
      var n := |endpoints| - 1;
      UsableFront(endpoints[..n], m);
      assert endpoints[..n][..m] == endpoints[..m];
    }
  }

  lemma {:induction false} SeenKeyed(c: Endpoint, i: nat)
    ensures Seen(c, i).index == i && (Seen(c, i).apiKey != "" <==> Keyed(c))
  {
    BlankSanitized(c.apiKey);
  }

  lemma {:induction false} AgreesKeyed(env: seq<string>, endpoints: seq<Endpoint>, i: nat)
    requires AgreesAt(env, endpoints, i) && 1 <= i <= CountOf(env)
    ensures ReadKeyed(env, i) ==
            if i <= |endpoints| && Keyed(endpoints[i - 1]) then [Seen(endpoints[i - 1], i)] else []
  {
    if i <= |endpoints| {
      SeenKeyed(endpoints[i - 1], i);
    }
    hide Trim;
    hide Getenv;
    hide Seen;
    hide Keyed;
  }

  lemma {:induction false} ReadIsUsable(env: seq<string>, endpoints: seq<Endpoint>, n: nat)
    requires ValuesAgree(env, endpoints) && n <= CountOf(env)
    ensures ReadCandidates(env, n) == Usable(if n <= |endpoints| then endpoints[..n] else endpoints)
  {
    hide ReadKeyed;
    hide AgreesAt;
    hide CountOf;
    hide Seen;
    hide Keyed;
    if n == 0 {
    } else {
      ReadIsUsable(env, endpoints, n - 1);
      AgreesKeyed(env, endpoints, n);
      if n <= |endpoints| {
        assert endpoints[..n][..n - 1] == endpoints[..n - 1];
      } else {
        assert endpoints[..|endpoints|] == endpoints;
      }
    }
  }

  lemma {:induction false} AgreesFromLists(env: seq<string>, endpoints: seq<Endpoint>, i: nat)
    requires CountOf(env) >= 0 && ReadCandidates(env, CountOf(env)) == Usable(endpoints)
    ensures AgreesAt(env, endpoints, i)
  {
    hide ReadCandidate;
    hide ReadCandidates;
    hide CountOf;
    hide Usable;
    hide Seen;
    hide Keyed;
    if 1 <= i <= |endpoints| && Keyed(endpoints[i - 1]) {
      var c := Seen(endpoints[i - 1], i);
      SeenKeyed(endpoints[i - 1], i);
      ReadHold(env, CountOf(env), c);
      UsableHold(endpoints, c);
    } else {
      var c := ReadCandidate(env, i);
      IndexRead(env, i);
      ReadHold(env, CountOf(env), c);
      UsableHold(endpoints, c);
    }
  }

  lemma {:induction false} IndexRead(env: seq<string>, i: nat)
    ensures ReadCandidate(env, i).index == i
  {}

  lemma {:induction false} UnkeyedBehind(env: seq<string>, endpoints: seq<Endpoint>, p: nat)
    requires AgreesAt(env, endpoints, p + 1) && CountOf(env) <= p < |endpoints|
    ensures !Keyed(endpoints[p])
  {}

  /** For any lines: the endpoints that have a key are what is loaded exactly if the values agree. */
  lemma {:induction false} LoadedIff(env: seq<string>, endpoints: seq<Endpoint>)
    ensures Loaded(env) == Some(Usable(endpoints)) <==> ValuesAgree(env, endpoints)
  {
    hide AgreesAt;
    hide CountOf;
    hide ReadCandidates;
    hide Usable;
    hide Keyed;
    var n := CountOf(env);
    if ValuesAgree(env, endpoints) {
      ReadIsUsable(env, endpoints, n);
      if n <= |endpoints| {
        forall p | n <= p < |endpoints| ensures !Keyed(endpoints[p]) {
          UnkeyedBehind(env, endpoints, p);
        }
        UsableFront(endpoints, n);
      }
    }
    if Loaded(env) == Some(Usable(endpoints)) {
      forall i: nat ensures AgreesAt(env, endpoints, i) {
        AgreesFromLists(env, endpoints, i);
      }
    }
  }

  /** Env-file round trip. The runner reads back from the sorted file exactly the endpoints that have a key, in order
      and with their original positions, each setting trimmed and rid of line breaks, if and only if the values agree.
      They do whatever the endpoints hold, and however many there are that can be loaded at all, unless a line break in
      an unnumbered value, which is written as it is, starts a line for a variable that the runner asks for. */
  lemma {:induction false} RoundTrip(cfg: ModelConfig, bin: string)
    ensures var env := ParseEnvFile(EnvFile(cfg, bin));
            && (Loaded(env) == Some(Usable(cfg.endpoints)) <==> ValuesAgree(env, cfg.endpoints))
            && (SinglesForeign(cfg, bin) ==>
                  Loaded(env) == if |cfg.endpoints| <= MAX_CANDIDATES then Some(Usable(cfg.endpoints)) else None)
  {
    hide EnvFile;
    hide ParseEnvFile;
    hide ValuesAgree;
    hide FileLines;
    hide SinglesForeign;
    hide ReadCandidates;
    hide Usable;
    var env := ParseEnvFile(EnvFile(cfg, bin));
    LoadedIff(env, cfg.endpoints);
    if SinglesForeign(cfg, bin) {
      FileParses(cfg, bin);
      ReadsCount(env, cfg);
      ReadsUsable(env, cfg, |cfg.endpoints|);
      assert cfg.endpoints[..|cfg.endpoints|] == cfg.endpoints;
    }
  }

  // ---- a line break in the primary key ----

  /** The primary key holds a line break and then a line giving the first endpoint a key. */
  predicate BrokenKey(cfg: ModelConfig, bin: string, front: string, key: string) {
    && cfg.apiKey == front + "\n" + Line(EnvKey(1, "API_KEY"), key)
    && OneLine(front) && OneLine(key) && SinglesOneLine(cfg.(apiKey := ""), bin)
  }

  lemma {:induction false} BrokenKeyParts(name: string, front: string, key: string)
    requires OneLine(name) && OneLine(front) && OneLine(key)
    ensures Split(Line(name, front + "\n" + Line(EnvKey(1, "API_KEY"), key)), '\n')
            == [Line(name, front), Line(EnvKey(1, "API_KEY"), key)]
  {
    var first, second := Line(name, front), Line(EnvKey(1, "API_KEY"), key);
    assert OneLine(second) by {
      PrintOneLine(1);
      assert OneLine(PREFIX) && OneLine("_" + "API_KEY") && OneLine("=");
    }
    assert OneLine(first);
    hide EnvKey;
    hide Split;
    hide OneLine;
    assert Line(name, front + "\n" + second) == first + ['\n'] + second;
    hide Line;
    SplitCons(first, second, '\n');
    SplitOne(second, '\n');
  }

  lemma {:induction false} BrokenKeyLine(cfg: ModelConfig, bin: string, front: string, key: string, l: string,
                                         part: string)
    requires BrokenKey(cfg, bin, front, key) && l in SingleLines(cfg, bin) && part in Split(l, '\n')
    ensures part == Line(EnvKey(1, "API_KEY"), key)
            || exists name: string, value: string :: SingleKey(name) && part == Line(name, value)
  {
    hide EnvKey;
    hide Split;
    hide Trim;
    var names := ["OPM_MODEL_API_KEY", "CURSOR_API_KEY"];
    assert SingleKey(names[0]) && SingleKey(names[1]);
    if l == Line(names[0], cfg.apiKey) || l == Line(names[1], cfg.apiKey) {
      var name := if l == Line(names[0], cfg.apiKey) then names[0] else names[1];
      SingleKeyOneLine(name);
      BrokenKeyParts(name, front, key);
    } else {
      var other := cfg.(apiKey := "");
      assert l in SingleLines(other, bin);
      LinesOneLine(other, bin, l);
      SplitOne(l, '\n');
      SingleLinesKeys(other, bin, l);
    }
  }

  /** Every line read back is then an unnumbered one, a numbered one that was written, or the one in the key. */
  lemma {:induction false} BrokenKeyLines(cfg: ModelConfig, bin: string, front: string, key: string, part: string)
    requires BrokenKey(cfg, bin, front, key) && part in ParseEnvFile(EnvFile(cfg, bin))
    ensures part == "" || part in CandidateEnvLines(cfg) || part == Line(EnvKey(1, "API_KEY"), key)
            || exists name: string, value: string :: SingleKey(name) && part == Line(name, value)
  {
    FilePart(cfg, bin, part);
    if part != "" && part !in CandidateEnvLines(cfg) {
      var l :| l in SingleLines(cfg, bin) && part in Split(l, '\n');
      BrokenKeyLine(cfg, bin, front, key, l, part);
    }
  }

  lemma {:induction false} SingleKeyClear(name: string, value: string, key: string)
    requires SingleKey(name) && !SingleKey(key)
    ensures !HasKey(Line(name, value), key)
  {
    KeyOfLine(name, value, key);
  }

  lemma {:induction false} BrokenKeyCount(cfg: ModelConfig, bin: string, front: string, key: string)
    requires BrokenKey(cfg, bin, front, key) && cfg.endpoints != []
    ensures CountOf(ParseEnvFile(EnvFile(cfg, bin))) >= 1
  {
    var env, line := ParseEnvFile(EnvFile(cfg, bin)), Line(COUNT_KEY, Print(|cfg.endpoints|));
    assert line in CandidateEnvLines(cfg);
    hide EnvFile;
    hide ParseEnvFile;
    hide CandidateEnvLines;
    hide SingleLines;
    hide EnvKey;
    hide HasKey;
    hide Print;
    hide ReadCount;
    hide BrokenKey;
    hide SingleKey;
    FilePart(cfg, bin, line);
    CountKeyPlain();
    NoClash(1, "API_KEY");
    EnvKeyPlain(1, "API_KEY");
    KeyOfLine(EnvKey(1, "API_KEY"), key, COUNT_KEY);
    EmptyForeign(cfg);
    forall l | l in env && HasKey(l, COUNT_KEY) ensures l == line {
      BrokenKeyLines(cfg, bin, front, key, l);
      if l in CandidateEnvLines(cfg) {
        CountOfCandidates(cfg, l);
      } else {
        var name: string, value: string :| SingleKey(name) && l == Line(name, value);
        SingleKeyClear(name, value, COUNT_KEY);
      }
    }
    GetenvUnique(env, COUNT_KEY, Print(|cfg.endpoints|));
    ReadCountPrint(|cfg.endpoints|);
  }

  lemma {:induction false} BrokenKeyRead(cfg: ModelConfig, bin: string, front: string, key: string)
    requires BrokenKey(cfg, bin, front, key) && cfg.endpoints != [] && !Keyed(cfg.endpoints[0])
    ensures Getenv(ParseEnvFile(EnvFile(cfg, bin)), EnvKey(1, "API_KEY")) == key
  {
    hide EnvFile;
    hide ParseEnvFile;
    hide CandidateEnvLines;
    hide EnvKey;
    hide HasKey;
    SingleKeyOneLine("OPM_MODEL_API_KEY");
    hide SingleKey;
    EmptyForeign(cfg);
    var env, numbered := ParseEnvFile(EnvFile(cfg, bin)), EnvKey(1, "API_KEY");
    NoClash(1, "API_KEY");
    EnvKeyPlain(1, "API_KEY");
    forall l | l in env && HasKey(l, numbered) ensures l == Line(numbered, key) {
      BrokenKeyLines(cfg, bin, front, key, l);
      if l in CandidateEnvLines(cfg) {
        CandidateLineOrigin(cfg, l, 1, "API_KEY");
        var setting :| setting in Settings(cfg.endpoints[0]) && Writes(1, setting, l) && setting.0 == "API_KEY";
        SettingUnique(cfg.endpoints[0], setting, ("API_KEY", cfg.endpoints[0].apiKey));
        assert false;
      } else if l != Line(numbered, key) {
        var name: string, value: string :| SingleKey(name) && l == Line(name, value);
        SingleKeyClear(name, value, numbered);
      }
    }
    FilePart(cfg, bin, Line(numbered, key));
    var l := Line("OPM_MODEL_API_KEY", cfg.apiKey);
    BrokenKeyParts("OPM_MODEL_API_KEY", front, key);
    assert l in SingleLines(cfg, bin);
    GetenvUnique(env, numbered, key);
  }

  /** Such a key breaks the round trip: the first endpoint, which has no key and should be dropped, is loaded with the
      key that the line gives. */
  lemma {:induction false} BrokenKeyLoads(cfg: ModelConfig, bin: string, front: string, key: string)
    requires BrokenKey(cfg, bin, front, key) && Trim(key) != ""
    requires cfg.endpoints != [] && !Keyed(cfg.endpoints[0])
    ensures Loaded(ParseEnvFile(EnvFile(cfg, bin))) != Some(Usable(cfg.endpoints))
  {
    hide Print;
    hide EnvKey;
    hide Keyed;
    hide Loaded;
    hide Usable;
    hide EnvFile;
    hide ParseEnvFile;
    hide CountOf;
    hide Getenv;
    hide Trim;
    var env := ParseEnvFile(EnvFile(cfg, bin));
    BrokenKeyCount(cfg, bin, front, key);
    BrokenKeyRead(cfg, bin, front, key);
    LoadedIff(env, cfg.endpoints);
    assert ReadCandidate(env, 1).apiKey == Trim(Getenv(env, EnvKey(1, "API_KEY")));
    assert !AgreesAt(env, cfg.endpoints, 1);
  }

  /** The candidate is the endpoint at its position, as the runner sees it. */
  predicate FromList(cand: Candidate, endpoints: seq<Endpoint>) {
    1 <= cand.index <= |endpoints| && Keyed(endpoints[cand.index - 1])
    && cand == Seen(endpoints[cand.index - 1], cand.index)
  }

  lemma {:induction false} FromLonger(cand: Candidate, endpoints: seq<Endpoint>, n: nat)
    requires n <= |endpoints| && FromList(cand, endpoints[..n])
    ensures FromList(cand, endpoints) && cand.index <= n
  {}

  lemma {:induction false} UsableFromList(endpoints: seq<Endpoint>, k: nat)
    requires k < |Usable(endpoints)|
    ensures FromList(Usable(endpoints)[k], endpoints)
  {
    var n := |endpoints| - 1;
    if k == |Usable(endpoints[..n])| {
    } else {
      UsableFromList(endpoints[..n], k);
      FromLonger(Usable(endpoints[..n])[k], endpoints, n);
    }
  }

  lemma {:induction false} UsableOrdered(endpoints: seq<Endpoint>, j: nat, k: nat)
    requires j < k < |Usable(endpoints)|
    ensures Usable(endpoints)[j].index < Usable(endpoints)[k].index
  {
    var n := |endpoints| - 1;
    if k < |Usable(endpoints[..n])| {
      UsableOrdered(endpoints[..n], j, k);
    } else {
      UsableFromList(endpoints[..n], j);
    }
  }

  lemma {:induction false} UsableComplete(endpoints: seq<Endpoint>, p: nat) returns (k: nat)
    requires p < |endpoints| && Keyed(endpoints[p])
    ensures k < |Usable(endpoints)| && Usable(endpoints)[k].index == p + 1
  {
    var n := |endpoints| - 1;
    if p < n {
      k := UsableComplete(endpoints[..n], p);
    } else {
      k := |Usable(endpoints[..n])|;
    }
  }

  // ---- normalized endpoints come back unchanged ----

  predicate Plain(s: string) {
    Trimmed(s) && '\n' !in s && '\r' !in s
  }

  predicate Word(s: string) {
    s != "" && forall i :: 0 <= i < |s| ==> !IsSpace(s[i])
  }

  /** Fields as the resolver normalizes them. */
  predicate Normalized(c: Endpoint) {
    && Plain(c.endpointId) && Plain(c.kind) && Plain(c.transport) && Plain(c.provider) && Plain(c.baseUrl)
    && Plain(c.model) && Plain(c.cliCommand) && Plain(c.apiKey)
    && Lowered(c.kind) && Lowered(c.transport) && Lowered(c.provider)
    && (c.baseUrl == "" || c.baseUrl[|c.baseUrl| - 1] != '/')
    && (forall k :: 0 <= k < |c.cliArgs| ==> Word(c.cliArgs[k]))
  }

  lemma {:induction false} PlainSurvives(s: string)
    requires Plain(s)
    ensures Trim(Sanitize(s)) == s
  {
    DropSpec(s, '\r');
    DropSpec(s, '\n');
    TrimSpec(s);
  }

  lemma {:induction false} TokenOfWord(w: string, rest: string)
    requires Word(w) && (rest == "" || IsSpace(rest[0]))
    ensures Token(w + rest) == w && TrimLeft(w + rest) == w + rest
  {
    if |w| == 1 {
      assert (w + rest)[1..] == rest;
    } else {
      TokenOfWord(w[1..], rest);
      assert (w + rest)[1..] == w[1..] + rest;
    }
  }

  lemma {:induction false} JoinPlain(args: seq<string>)
    requires forall k :: 0 <= k < |args| ==> Word(args[k])
    ensures Plain(Join(args, ' '))
    ensures args != [] ==> Join(args, ' ') != "" && !IsSpace(Join(args, ' ')[0])
  {
    if |args| <= 1 {
    } else {
      var rest := Join(args[1..], ' ');
      JoinPlain(args[1..]);
      var all := args[0] + (" " + rest);
      assert Join(args, ' ') == all;
      assert all[|all| - 1] == rest[|rest| - 1];
    }
  }

  lemma {:induction false} WordsOfJoin(args: seq<string>)
    requires forall k :: 0 <= k < |args| ==> Word(args[k])
    ensures Words(Join(args, ' ')) == args
  {
    if args == [] {
    } else if |args| == 1 {
      TokenOfWord(args[0], "");
      assert args[0] + "" == args[0];
    } else {
      var rest := Join(args[1..], ' ');
      WordsOfJoin(args[1..]);
      TokenOfWord(args[0], " " + rest);
      var all := args[0] + (" " + rest);
      assert Join(args, ' ') == all;
      assert all[|args[0]|..] == " " + rest;
      WordsAfterBlank(rest);
    }
  }

  lemma {:induction false} WordsAfterBlank(s: string)
    ensures Words(" " + s) == Words(s)
  {
    assert (" " + s)[1..] == s;
  }

  /** A normalized endpoint is seen exactly as it was resolved. */
  lemma {:induction false} NormalizedSurvives(c: Endpoint, i: nat)
    requires Normalized(c)
    ensures Seen(c, i) == Candidate(i, c.endpointId, c.kind, c.transport, c.provider, c.baseUrl, c.model,
                                    c.cliCommand, c.cliArgs, c.apiKey)
  {
    PlainSurvives(c.endpointId);
    PlainSurvives(c.kind);
    PlainSurvives(c.transport);
    PlainSurvives(c.provider);
    PlainSurvives(c.baseUrl);
    PlainSurvives(c.model);
    PlainSurvives(c.cliCommand);
    PlainSurvives(c.apiKey);
    LowerSpec(c.kind);
    LowerSpec(c.transport);
    LowerSpec(c.provider);
    WordsOfJoin(c.cliArgs);
    JoinPlain(c.cliArgs);
    PlainSurvives(Join(c.cliArgs, ' '));
  }
}
