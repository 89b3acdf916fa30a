/** The severity classifier: a configured minimum severity selects the
    cumulative list of levels the vulnerability scanner reports on. The four
    evaluators each carry a copy of this mapping (a `switch` in src/x9.ts,
    src/sec.js and src/main.js, an if-chain in main.js); all four copies
    map the same inputs to the same lists, so it is defined once here. */
module Severity {
  import opened Wrappers
  import opened Text

  /** Severity levels, from the most permissive to the most severe: the
      order in which the comma lists name them. */
  datatype Level = Unknown | Low | Medium | High | Critical

  function Name(l: Level): string {
    match l
    case Unknown => "UNKNOWN"
    case Low => "LOW"
    case Medium => "MEDIUM"
    case High => "HIGH"
    case Critical => "CRITICAL"
  }

  const AllLevels: seq<Level> := [Unknown, Low, Medium, High, Critical]

  const AllNames: seq<string> := ["UNKNOWN", "LOW", "MEDIUM", "HIGH", "CRITICAL"]

  /** The level a `case` label of the switch names. "UNKNOWN" has no label
      of its own: like every other string it falls to the `default`. */
  function NamedLevel(s: string): (l: Option<Level>)
    ensures l.Some? ==> Name(l.value) == s && l.value != Unknown
    ensures l.None? ==> forall m: Level :: m != Unknown ==> Name(m) != s
  {
    if s == "CRITICAL" then Some(Critical)
    else if s == "HIGH" then Some(High)
    else if s == "MEDIUM" then Some(Medium)
    else if s == "LOW" then Some(Low)
    else None
  }

  /** The levels scanned for a configured severity: that level and every
      more severe one when the switch names it, all five otherwise. */
  function Buckets(s: string): (b: seq<Level>)
    ensures 1 <= |b| <= 5 && b == AllLevels[5 - |b|..]
    ensures b[|b| - 1] == Critical
    ensures NamedLevel(s).Some? ==> b[0] == NamedLevel(s).value
    ensures NamedLevel(s).None? ==> b == AllLevels
  {
    match NamedLevel(s)
    case Some(Critical) => AllLevels[4..]
    case Some(High) => AllLevels[3..]
    case Some(Medium) => AllLevels[2..]
    case Some(Low) => AllLevels[1..]
    case _ => AllLevels
  }

  function Names(b: seq<Level>): (r: seq<string>)
    ensures |r| == |b| && forall i :: 0 <= i < |b| ==> r[i] == Name(b[i])
  {
    seq(|b|, i requires 0 <= i < |b| => Name(b[i]))
  }

  /** The comma list handed to the scanner as TRIVY_SEVERITY: the
      `minimalSeverity` function of src/x9.ts and the switch or if-chain of
      the other three evaluators. It names exactly the scanned levels, in
      order, joined by commas. */
  function CumulativeList(s: string): (r: string)
    ensures r == Join(Names(Buckets(s)), ',')
  {
    if s == "CRITICAL" then
      NamesOfSuffix(4);
      JoinedCritical();
      "CRITICAL"
    else if s == "HIGH" then
      NamesOfSuffix(3);
      JoinedHigh();
      "HIGH,CRITICAL"
    else if s == "MEDIUM" then
      NamesOfSuffix(2);
      JoinedMedium();
      "MEDIUM,HIGH,CRITICAL"
    else if s == "LOW" then
      NamesOfSuffix(1);
      JoinedLow();
      "LOW,MEDIUM,HIGH,CRITICAL"
    else
      NamesOfSuffix(0);
      JoinedUnknown();
      assert AllLevels[0..] == AllLevels;
      "UNKNOWN,LOW,MEDIUM,HIGH,CRITICAL"
  }

  /** Joining a list of at least two pieces puts the separator after the first. */
  lemma JoinCons(x: string, rest: seq<string>, sep: char)
    requires |rest| >= 1
    ensures Join([x] + rest, sep) == x + [sep] + Join(rest, sep)
  {
    assert ([x] + rest)[1..] == rest;
  }

  /** Each suffix of the full name list, joined with commas. */
  lemma JoinedCritical()
    ensures Join(AllNames[4..], ',') == "CRITICAL"
  {
    assert AllNames[4..] == ["CRITICAL"];
  }

  lemma JoinedHigh()
    ensures Join(AllNames[3..], ',') == "HIGH,CRITICAL"
  {
    assert AllNames[3..] == ["HIGH"] + AllNames[4..];
    JoinedCritical();
    JoinCons("HIGH", AllNames[4..], ',');
  }

  lemma JoinedMedium()
    ensures Join(AllNames[2..], ',') == "MEDIUM,HIGH,CRITICAL"
  {
    assert AllNames[2..] == ["MEDIUM"] + AllNames[3..];
    JoinedHigh();
    JoinCons("MEDIUM", AllNames[3..], ',');
  }

  lemma JoinedLow()
    ensures Join(AllNames[1..], ',') == "LOW,MEDIUM,HIGH,CRITICAL"
  {
    assert AllNames[1..] == ["LOW"] + AllNames[2..];
    JoinedMedium();
    JoinCons("LOW", AllNames[2..], ',');
  }

  lemma JoinedUnknown()
    ensures Join(AllNames[0..], ',') == "UNKNOWN,LOW,MEDIUM,HIGH,CRITICAL"
  {
    assert AllNames[0..] == ["UNKNOWN"] + AllNames[1..];
    JoinedLow();
    JoinCons("UNKNOWN", AllNames[1..], ',');
  }

  /** The names of a suffix of the full level list. */
  lemma NamesOfSuffix(k: nat)
    requires k <= 5
    ensures Names(AllLevels[k..]) == AllNames[k..]
  {
    var n := Names(AllLevels[k..]);
    forall i | 0 <= i < 5 - k ensures n[i] == AllNames[k + i] {
      assert AllLevels[k..][i] == AllLevels[k + i];
    }
  }

  /** No level name holds a comma. */
  lemma NameHasNoComma(l: Level, k: int)
    requires 0 <= k < |Name(l)|
    ensures Name(l)[k] != ','
  {
    match l
    case Unknown => assert Name(l) == "UNKNOWN";
    case Low => assert Name(l) == "LOW";
    case Medium => assert Name(l) == "MEDIUM";
    case High => assert Name(l) == "HIGH";
    case Critical => assert Name(l) == "CRITICAL";
  }

  /** The scanner, splitting the comma list, recovers the level names. */
  lemma CumulativeListSplits(s: string)
    ensures Split(CumulativeList(s), ',') == Names(Buckets(s))
  {
    var b := Buckets(s);
    forall i, k | 0 <= i < |Names(b)| && 0 <= k < |Names(b)[i]| ensures Names(b)[i][k] != ',' {
      NameHasNoComma(b[i], k);
    }
    SplitJoin(Names(b), ',');
  }

  /** The value `config.minimalSeverity` holds after the switch of src/sec.js
      and src/main.js: its `default` branch overwrites it with "UNKNOWN". */
  function EffectiveSeverity(s: string): (e: string)
    ensures NamedLevel(s).Some? ==> e == s
    ensures NamedLevel(s).None? ==> e == "UNKNOWN"
  {
    if NamedLevel(s).Some? then s else "UNKNOWN"
  }

  /** The two fields of the action's `config` object that the threat
      evaluation reads; the switch updates `minimalSeverity` in place. */
  class Config {
    var minimalSeverity: string
    var ignoreThreats: string

    constructor (minimalSeverity: string, ignoreThreats: string)
      ensures this.minimalSeverity == minimalSeverity && this.ignoreThreats == ignoreThreats
    {
      this.minimalSeverity := minimalSeverity;
      this.ignoreThreats := ignoreThreats;
    }
  }

  /** The severity switch of src/sec.js and src/main.js: returns the comma
      list for the scanner and, in its default branch, rewrites the
      configured severity to "UNKNOWN". */
  method SeveritySwitch(config: Config) returns (trivySeverity: string)
    modifies config
    ensures trivySeverity == CumulativeList(old(config.minimalSeverity))
    ensures config.minimalSeverity == EffectiveSeverity(old(config.minimalSeverity))
    ensures config.ignoreThreats == old(config.ignoreThreats)
  {
    match config.minimalSeverity
    case "CRITICAL" =>
      trivySeverity := "CRITICAL";
    case "HIGH" =>
      trivySeverity := "HIGH,CRITICAL";
    case "MEDIUM" =>
      trivySeverity := "MEDIUM,HIGH,CRITICAL";
    case "LOW" =>
      trivySeverity := "LOW,MEDIUM,HIGH,CRITICAL";
    case _ =>
      config.minimalSeverity := "UNKNOWN";
      trivySeverity := "UNKNOWN,LOW,MEDIUM,HIGH,CRITICAL";
  }
}
