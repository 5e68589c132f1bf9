/**
 * The pure helpers of alphafold/app.js: pLDDT colour banding, sequence normalisation, the choice of
 * structure file, the confidence bars, percentage formatting, the cache key, and the first-truthy
 * fallback chains that fill the summary panels.
 *
 * JSON objects that may be missing are `Option`s; a field that may be absent is an `Option` too.
 */
module AlphaFold {
  import opened Wrappers

  // ---------------------------------------------------------------------------------------------
  // Records read from the prediction API

  /** The fields of one prediction entry the helpers read. */
  datatype Model = Model(
    pdbUrl: Option<string>,
    cifUrl: Option<string>,
    fractionPlddtVeryHigh: Option<real>,
    fractionPlddtConfident: Option<real>,
    fractionPlddtLow: Option<real>,
    fractionPlddtVeryLow: Option<real>,
    uniprotDescription: Option<string>,
    uniprotId: Option<string>,
    uniprotAccession: Option<string>,
    entryId: Option<string>,
    sequence: Option<string>)

  /** The fields of the UniProt summary the helpers read. */
  datatype Summary = Summary(
    proteinName: Option<string>,
    entryName: Option<string>,
    uniprotDescription: Option<string>,
    sequenceLength: Option<int>,
    sequence: Option<string>)

  /** A missing model reads like one whose every field is missing (`model?.field` is undefined). */
  function EmptyModel(): Model {
    Model(None, None, None, None, None, None, None, None, None, None, None)
  }

  /** A missing summary reads like one whose every field is missing. */
  function EmptySummary(): Summary {
    Summary(None, None, None, None, None)
  }

  // ---------------------------------------------------------------------------------------------
  // colorForPlddt

  const VERY_HIGH_COLOR: string := "#1f77b4"
  const CONFIDENT_COLOR: string := "#76b7b2"
  const LOW_COLOR: string := "#f1ce63"
  const VERY_LOW_COLOR: string := "#e07b39"

  /** The colour of a pLDDT score: four bands with lower bounds 90, 70 and 50. */
  function ColorForPlddt(value: real): (r: string)
    ensures r == VERY_HIGH_COLOR <==> 90.0 <= value
    ensures r == CONFIDENT_COLOR <==> 70.0 <= value < 90.0
    ensures r == LOW_COLOR <==> 50.0 <= value < 70.0
    ensures r == VERY_LOW_COLOR <==> value < 50.0
  {
    if value >= 90.0 then VERY_HIGH_COLOR
    else if value >= 70.0 then CONFIDENT_COLOR
    else if value >= 50.0 then LOW_COLOR
    else VERY_LOW_COLOR
  }

  /** The confidence rank of a band colour, 3 for very high down to 0 for very low. */
  function BandRank(color: string): nat {
    if color == VERY_HIGH_COLOR then 3
    else if color == CONFIDENT_COLOR then 2
    else if color == LOW_COLOR then 1
    else 0
  }

  /** A higher score never falls into a less confident band. */
  lemma ColorMonotone(v: real, w: real)
    requires v <= w
    ensures BandRank(ColorForPlddt(v)) <= BandRank(ColorForPlddt(w))
  {
  }

  /** The four scores of the unit tests land in the four bands. */
  lemma ColorExamples()
    ensures ColorForPlddt(95.0) == VERY_HIGH_COLOR
    ensures ColorForPlddt(75.0) == CONFIDENT_COLOR
    ensures ColorForPlddt(55.0) == LOW_COLOR
    ensures ColorForPlddt(10.0) == VERY_LOW_COLOR
  {
  }

  // ---------------------------------------------------------------------------------------------
  // normalizeSequence

  /** The characters the regular-expression class `\s` matches. */
  predicate IsSpace(c: char) {
    var n := c as int;
    (9 <= n <= 13) || n == 0x20 || n == 0xA0 || n == 0x1680 || (0x2000 <= n <= 0x200A)
    || n == 0x2028 || n == 0x2029 || n == 0x202F || n == 0x205F || n == 0x3000 || n == 0xFEFF
  }

  predicate IsLower(c: char) {
    'a' <= c <= 'z'
  }

  /** Upper-casing of one character, on the ASCII letters. */
  function ToUpper(c: char): (u: char)
    ensures IsSpace(u) <==> IsSpace(c)
    ensures !IsLower(u)
    ensures !IsLower(c) ==> u == c
  {
    if IsLower(c) then (c as int - 32) as char else c
  }

  /** How many characters of s are whitespace. */
  function SpaceCount(s: string): (n: nat)
    ensures n <= |s|
  {
    if s == [] then 0 else (if IsSpace(s[0]) then 1 else 0) + SpaceCount(s[1..])
  }

  /** `sequence.replace(/\s+/g, "").toUpperCase()`: every whitespace run removed, letters upper-cased. */
  function NormalizeSequence(s: string): (r: string)
    ensures |r| == |s| - SpaceCount(s)
    ensures forall i :: 0 <= i < |r| ==> !IsSpace(r[i]) && !IsLower(r[i])
  {
    if s == [] then []
    else if IsSpace(s[0]) then NormalizeSequence(s[1..])
    else [ToUpper(s[0])] + NormalizeSequence(s[1..])
  }

  /** A sequence without whitespace and lower-case letters is already normal. */
  lemma {:induction false} NormalizeFixesNormal(s: string)
    requires forall i :: 0 <= i < |s| ==> !IsSpace(s[i]) && !IsLower(s[i])
    ensures NormalizeSequence(s) == s
  {
    if s != [] {
      assert forall i :: 0 <= i < |s[1..]| ==> s[1..][i] == s[i + 1];
      NormalizeFixesNormal(s[1..]);
      assert [s[0]] + s[1..] == s;
    }
  }

  /** Normalising twice is normalising once. */
  lemma NormalizeIdempotent(s: string)
    ensures NormalizeSequence(NormalizeSequence(s)) == NormalizeSequence(s)
  {
    NormalizeFixesNormal(NormalizeSequence(s));
  }

  /** Normalisation works character by character: pasting two pieces normalises each piece. */
  lemma {:induction false} NormalizeConcat(a: string, b: string)
    ensures NormalizeSequence(a + b) == NormalizeSequence(a) + NormalizeSequence(b)
  {
    if a != [] {
      assert (a + b)[0] == a[0];
      assert (a + b)[1..] == a[1..] + b;
      NormalizeConcat(a[1..], b);
    } else {
      assert a + b == b;
    }
  }

  /** The unit test: "Abc def" becomes "ABCDEF". */
  lemma NormalizeExample()
    ensures NormalizeSequence("Abc def") == "ABCDEF"
  {
    assert NormalizeSequence("def") == "DEF";
    assert NormalizeSequence(" def") == "DEF";
  }

  // ---------------------------------------------------------------------------------------------
  // getModelSource

  /** `{ url, format }`: where the structure file is and how the viewer should parse it. */
  datatype Source = Source(url: string, format: string)

  /** A string field that is present and non-empty, the strings JavaScript treats as true. */
  predicate Truthy(o: Option<string>) {
    o.Some? && o.value != ""
  }

  /** The PDB file when its URL is set, otherwise the mmCIF file, otherwise none. */
  function GetModelSource(model: Option<Model>): (r: Option<Source>)
    ensures (model.Some? && Truthy(model.value.pdbUrl)) ==>
      r == Some(Source(model.value.pdbUrl.value, "pdb"))
    ensures !(model.Some? && Truthy(model.value.pdbUrl)) && (model.Some? && Truthy(model.value.cifUrl)) ==>
      r == Some(Source(model.value.cifUrl.value, "cif"))
    ensures r.None? <==> !(model.Some? && Truthy(model.value.pdbUrl)) && !(model.Some? && Truthy(model.value.cifUrl))
  {
    if model.Some? && Truthy(model.value.pdbUrl) then Some(Source(model.value.pdbUrl.value, "pdb"))
    else if model.Some? && Truthy(model.value.cifUrl) then Some(Source(model.value.cifUrl.value, "cif"))
    else None
  }

  /** The unit test: with both URLs set the PDB file wins. */
  lemma ModelSourceExample(m: Model)
    requires m.pdbUrl == Some("pdb") && m.cifUrl == Some("cif")
    ensures GetModelSource(Some(m)) == Some(Source("pdb", "pdb"))
  {
  }

  // ---------------------------------------------------------------------------------------------
  // buildConfidenceBars and formatPercent

  /** One bar of the confidence chart; `caption` is the bar's `label`. */
  datatype Bar = Bar(caption: string, fraction: real, color: string)

  /**
   * The four bars, most confident first, each with the model's fraction of residues in its band,
   * or 0 when the model or that fraction is missing.
   */
  function BuildConfidenceBars(model: Option<Model>): (r: seq<Bar>)
    ensures |r| == 4
    ensures r[0].caption == "Very high" && r[1].caption == "Confident" && r[2].caption == "Low" && r[3].caption == "Very low"
    ensures r[0].color == VERY_HIGH_COLOR && r[1].color == CONFIDENT_COLOR
    ensures r[2].color == LOW_COLOR && r[3].color == VERY_LOW_COLOR
    ensures r[0].fraction == (if model.Some? && model.value.fractionPlddtVeryHigh.Some?
                              then model.value.fractionPlddtVeryHigh.value else 0.0)
    ensures r[1].fraction == (if model.Some? && model.value.fractionPlddtConfident.Some?
                              then model.value.fractionPlddtConfident.value else 0.0)
    ensures r[2].fraction == (if model.Some? && model.value.fractionPlddtLow.Some?
                              then model.value.fractionPlddtLow.value else 0.0)
    ensures r[3].fraction == (if model.Some? && model.value.fractionPlddtVeryLow.Some?
                              then model.value.fractionPlddtVeryLow.value else 0.0)
  {
    var m := if model.Some? then model.value else EmptyModel();
    [ Bar("Very high", Or0(m.fractionPlddtVeryHigh), VERY_HIGH_COLOR),
      Bar("Confident", Or0(m.fractionPlddtConfident), CONFIDENT_COLOR),
      Bar("Low", Or0(m.fractionPlddtLow), LOW_COLOR),
      Bar("Very low", Or0(m.fractionPlddtVeryLow), VERY_LOW_COLOR) ]
  }

  /** The lowest pLDDT score of each bar's band. */
  const BAND_FLOORS: seq<real> := [90.0, 70.0, 50.0, 0.0]

  /** Each bar wears the colour `colorForPlddt` gives the scores of its band, and only those. */
  lemma BarsMatchBands(model: Option<Model>, i: nat, v: real)
    requires i < 4 && 0.0 <= v <= 100.0
    ensures var bars := BuildConfidenceBars(model);
      ColorForPlddt(v) == bars[i].color <==> BAND_FLOORS[i] <= v && (i == 0 || v < BAND_FLOORS[i - 1])
  {
  }

  /** The unit test: fractions 0.4, 0.3, 0.2, 0.1 give four bars, the first 0.4, the last "Very low". */
  lemma ConfidenceBarsExample(m: Model)
    requires m.fractionPlddtVeryHigh == Some(0.4) && m.fractionPlddtConfident == Some(0.3)
    requires m.fractionPlddtLow == Some(0.2) && m.fractionPlddtVeryLow == Some(0.1)
    ensures var bars := BuildConfidenceBars(Some(m));
      |bars| == 4 && bars[0].fraction == 0.4 && bars[3].caption == "Very low"
  {
  }

  /** `Math.round`: the nearest integer, halves rounded up. */
  function Round(x: real): (n: int)
    ensures n as real - 0.5 <= x < n as real + 0.5
  {
    (x + 0.5).Floor
  }

  predicate IsDigit(c: char) {
    '0' <= c <= '9'
  }

  /** The decimal digits of n, without leading zeros. */
  function NatToString(n: nat): (s: string)
    ensures |s| >= 1
    ensures forall i :: 0 <= i < |s| ==> IsDigit(s[i])
    ensures s[0] == '0' ==> n == 0
    decreases n
  {
    if n < 10 then ["0123456789"[n]] else NatToString(n / 10) + ["0123456789"[n % 10]]
  }

  /** `String(n)` for an integer n. */
  function IntToString(n: int): (s: string)
    ensures |s| >= 1
    ensures s[0] == '-' <==> n < 0
  {
    if n < 0 then "-" + NatToString(-n) else NatToString(n)
  }

  /** The value of one decimal digit. */
  function DigitValue(c: char): (d: nat)
    requires IsDigit(c)
    ensures d < 10 && "0123456789"[d] == c
  {
    c as int - '0' as int
  }

  predicate AllDigits(s: string) {
    forall i :: 0 <= i < |s| ==> IsDigit(s[i])
  }

  /** The value of a string of decimal digits. */
  function ParseNat(s: string): nat
    requires AllDigits(s)
  {
    if s == [] then 0 else 10 * ParseNat(s[..|s| - 1]) + DigitValue(s[|s| - 1])
  }

  /** A decimal integer: an optional minus sign and at least one digit. */
  predicate IsDecimal(s: string) {
    if |s| > 0 && s[0] == '-' then |s| >= 2 && AllDigits(s[1..]) else |s| >= 1 && AllDigits(s)
  }

  /** The value of a decimal integer. */
  function ParseInt(s: string): int
    requires IsDecimal(s)
  {
    if s[0] == '-' then -(ParseNat(s[1..]) as int) else ParseNat(s)
  }

  /** Reading back the digits of n gives n. */
  lemma {:induction false} NatToStringRoundTrip(n: nat)
    ensures ParseNat(NatToString(n)) == n
    decreases n
  {
    var s := NatToString(n);
    if n >= 10 {
      NatToStringRoundTrip(n / 10);
      assert s[..|s| - 1] == NatToString(n / 10);
      assert DigitValue(s[|s| - 1]) == n % 10;
    } else {
      assert s[..0] == [];
    }
  }

  /** Reading back `String(n)` gives n. */
  lemma IntToStringRoundTrip(n: int)
    ensures IsDecimal(IntToString(n)) && ParseInt(IntToString(n)) == n
  {
    if n < 0 {
      NatToStringRoundTrip(-n);
      SignedDecimal(NatToString(-n));
    } else {
      NatToStringRoundTrip(n);
    }
  }

  /** A minus sign before a string of digits reads as the negated value of the digits. */
  lemma SignedDecimal(digits: string)
    requires |digits| >= 1 && AllDigits(digits)
    ensures IsDecimal("-" + digits) && ParseInt("-" + digits) == -(ParseNat(digits) as int)
  {
    assert ("-" + digits)[1..] == digits;
  }

  /**
   * A missing fraction counts as 0: `fraction ?? 0`, and also `fraction || 0`, the two agreeing
   * on every number but NaN, which the model has no counterpart for.
   */
  function Or0(fraction: Option<real>): real {
    if fraction.Some? then fraction.value else 0.0
  }

  /**
   * `${Math.round((fraction || 0) * 100)}%`: an integer percentage and a percent sign, the
   * integer being the nearest one to 100 times the fraction.
   */
  function FormatPercent(fraction: Option<real>): (r: string)
    ensures |r| >= 2 && r[|r| - 1] == '%' && IsDecimal(r[..|r| - 1])
    ensures var n := ParseInt(r[..|r| - 1]);
      n as real - 0.5 <= 100.0 * Or0(fraction) < n as real + 0.5
  {
    var n := Round(Or0(fraction) * 100.0);
    IntToStringRoundTrip(n);
    var r := IntToString(n) + "%";
    assert r[..|r| - 1] == IntToString(n);
    r
  }

  /** A falsy fraction shows as "0%"; 0.4 shows as "40%"; 0.125 rounds up to "13%". */
  lemma FormatPercentExamples()
    ensures FormatPercent(None) == "0%"
    ensures FormatPercent(Some(0.0)) == "0%"
    ensures FormatPercent(Some(0.4)) == "40%"
    ensures FormatPercent(Some(0.125)) == "13%"
  {
    assert Round(40.0) == 40;
    assert NatToString(40) == "40";
    assert Round(12.5) == 13;
    assert NatToString(13) == "13";
  }

  // ---------------------------------------------------------------------------------------------
  // cacheKey

  const CACHE_PREFIX: string := "alphafold-prediction:"

  /** The local-storage key of a qualifier's cached prediction. */
  function CacheKey(qualifier: string): (k: string)
    ensures |k| == |CACHE_PREFIX| + |qualifier|
    ensures k[..|CACHE_PREFIX|] == CACHE_PREFIX && k[|CACHE_PREFIX|..] == qualifier
  {
    CACHE_PREFIX + qualifier
  }

  /** The qualifier a key belongs to, if it is a cache key at all. */
  function KeyQualifier(k: string): (q: Option<string>)
    ensures q.Some? <==> |CACHE_PREFIX| <= |k| && k[..|CACHE_PREFIX|] == CACHE_PREFIX
  {
    if |CACHE_PREFIX| <= |k| && k[..|CACHE_PREFIX|] == CACHE_PREFIX then Some(k[|CACHE_PREFIX|..]) else None
  }

  /** Every cache key names its qualifier, and every key naming a qualifier is its cache key. */
  lemma CacheKeyRoundTrip(qualifier: string, k: string)
    ensures KeyQualifier(CacheKey(qualifier)) == Some(qualifier)
    ensures KeyQualifier(k) == Some(qualifier) ==> k == CacheKey(qualifier)
  {
    if KeyQualifier(k) == Some(qualifier) {
      assert k == k[..|CACHE_PREFIX|] + k[|CACHE_PREFIX|..];
    }
  }

  /** Different qualifiers never share a cached entry. */
  lemma CacheKeyInjective(a: string, b: string)
    requires CacheKey(a) == CacheKey(b)
    ensures a == b
  {
    CacheKeyRoundTrip(a, CacheKey(b));
  }

  // ---------------------------------------------------------------------------------------------
  // The fallback chains of the summary panels

  /** A candidate JavaScript treats as true: present, and truthy by the rule of its type. */
  predicate Hit<T>(o: Option<T>, truthy: T -> bool) {
    o.Some? && truthy(o.value)
  }

  /**
   * `c1 || c2 || ... || fallback`: the first candidate that is a hit, every earlier one being a
   * miss, or the fallback when every candidate misses.
   */
  function FirstTruthy<T>(cands: seq<Option<T>>, truthy: T -> bool, fallback: T): (r: T)
    ensures || (exists j :: 0 <= j < |cands| && Hit(cands[j], truthy) && r == cands[j].value
                 && forall i :: 0 <= i < j ==> !Hit(cands[i], truthy))
            || (r == fallback && forall i :: 0 <= i < |cands| ==> !Hit(cands[i], truthy))
  {
    if cands == [] then fallback
    else if Hit(cands[0], truthy) then cands[0].value
    else
      var r := FirstTruthy(cands[1..], truthy, fallback);
      assert forall i :: 0 <= i < |cands[1..]| ==> cands[1..][i] == cands[i + 1];
      r
  }

  /**
   * The chain stops at its first hit: when candidates 0 .. k-1 all miss, candidate k decides if it
   * hits, and the fallback decides when there is no candidate k.
   */
  lemma FirstTruthyAt<T>(cands: seq<Option<T>>, truthy: T -> bool, fallback: T, k: nat)
    requires k <= |cands|
    ensures (forall i :: 0 <= i < k ==> !Hit(cands[i], truthy)) && k < |cands| && Hit(cands[k], truthy) ==>
      FirstTruthy(cands, truthy, fallback) == cands[k].value
    ensures (forall i :: 0 <= i < k ==> !Hit(cands[i], truthy)) && k == |cands| ==>
      FirstTruthy(cands, truthy, fallback) == fallback
  {
  }

  /** The truthiness of strings: non-empty. */
  predicate NonEmpty(s: string) {
    s != ""
  }

  /** The placeholder shown when no candidate is available. */
  const DASH: string := "\U{2014}"

  /** The UniProt identifier: uniprotId, then entryId, then the qualifier searched for, else a dash. */
  function GetUniProtId(model: Option<Model>, qualifier: Option<string>): (r: string)
    ensures (model.Some? && Truthy(model.value.uniprotId)) ==> r == model.value.uniprotId.value
    ensures !(model.Some? && Truthy(model.value.uniprotId)) && (model.Some? && Truthy(model.value.entryId)) ==>
      r == model.value.entryId.value
    ensures !(model.Some? && Truthy(model.value.uniprotId)) && !(model.Some? && Truthy(model.value.entryId)) ==>
      r == (if Truthy(qualifier) then qualifier.value else DASH)
  {
    var m := if model.Some? then model.value else EmptyModel();
    var cands := [m.uniprotId, m.entryId, qualifier];
    assert forall i :: 0 <= i < |cands| ==> (Hit(cands[i], NonEmpty) <==> Truthy(cands[i]));
    FirstTruthyAt(cands, NonEmpty, DASH, 0);
    FirstTruthyAt(cands, NonEmpty, DASH, 1);
    FirstTruthyAt(cands, NonEmpty, DASH, 2);
    FirstTruthyAt(cands, NonEmpty, DASH, 3);
    FirstTruthy(cands, NonEmpty, DASH)
  }

  /** The protein name: the model's description, then the summary's name, entry name, description. */
  function GetProteinName(model: Option<Model>, summary: Option<Summary>): (r: string)
    ensures (model.Some? && Truthy(model.value.uniprotDescription)) ==> r == model.value.uniprotDescription.value
    ensures !(model.Some? && Truthy(model.value.uniprotDescription)) ==>
      if (summary.Some? && Truthy(summary.value.proteinName)) then r == summary.value.proteinName.value
      else if (summary.Some? && Truthy(summary.value.entryName)) then r == summary.value.entryName.value
      else if (summary.Some? && Truthy(summary.value.uniprotDescription)) then r == summary.value.uniprotDescription.value
      else r == DASH
  {
    var m := if model.Some? then model.value else EmptyModel();
    var u := if summary.Some? then summary.value else EmptySummary();
    var cands := [m.uniprotDescription, u.proteinName, u.entryName, u.uniprotDescription];
    assert forall i :: 0 <= i < |cands| ==> (Hit(cands[i], NonEmpty) <==> Truthy(cands[i]));
    FirstTruthyAt(cands, NonEmpty, DASH, 0);
    FirstTruthyAt(cands, NonEmpty, DASH, 1);
    FirstTruthyAt(cands, NonEmpty, DASH, 2);
    FirstTruthyAt(cands, NonEmpty, DASH, 3);
    FirstTruthyAt(cands, NonEmpty, DASH, 4);
    FirstTruthy(cands, NonEmpty, DASH)
  }

  /** `getSequenceLength` shows either a number or the dash. */
  datatype Shown = Number(n: int) | Text(s: string)

  /** JavaScript truthiness of a number or a string: non-zero, non-empty. */
  predicate ShownTruthy(v: Shown) {
    match v
    case Number(n) => n != 0
    case Text(s) => s != ""
  }

  /** `o?.sequence?.length` as a shown number. */
  function LengthOf(sequence: Option<string>): Option<Shown> {
    if sequence.Some? then Some(Number(|sequence.value|)) else None
  }

  /**
   * The sequence length: the model's sequence length, then the summary's sequenceLength, then
   * the summary's sequence length, else a dash; a length of zero counts as missing.
   */
  function GetSequenceLength(model: Option<Model>, summary: Option<Summary>): (r: Shown)
    ensures model.Some? && model.value.sequence.Some? && model.value.sequence.value != [] ==>
      r == Number(|model.value.sequence.value|)
    ensures !(model.Some? && model.value.sequence.Some? && model.value.sequence.value != []) ==>
      if summary.Some? && summary.value.sequenceLength.Some? && summary.value.sequenceLength.value != 0
      then r == Number(summary.value.sequenceLength.value)
      else if summary.Some? && summary.value.sequence.Some? && summary.value.sequence.value != []
      then r == Number(|summary.value.sequence.value|)
      else r == Text(DASH)
  {
    var m := if model.Some? then model.value else EmptyModel();
    var u := if summary.Some? then summary.value else EmptySummary();
    var given := if u.sequenceLength.Some? then Some(Number(u.sequenceLength.value)) else None;
    var cands := [LengthOf(m.sequence), given, LengthOf(u.sequence)];
    FirstTruthyAt(cands, ShownTruthy, Text(DASH), 0);
    FirstTruthyAt(cands, ShownTruthy, Text(DASH), 1);
    FirstTruthyAt(cands, ShownTruthy, Text(DASH), 2);
    FirstTruthyAt(cands, ShownTruthy, Text(DASH), 3);
    FirstTruthy(cands, ShownTruthy, Text(DASH))
  }

  /**
   * The accession the summary is fetched for: uniprotAccession, then entryId, else the qualifier
   * as given, even when that is missing or empty.
   */
  function GetSummaryQualifier(model: Option<Model>, qualifier: Option<string>): (r: Option<string>)
    ensures (model.Some? && Truthy(model.value.uniprotAccession)) ==> r == model.value.uniprotAccession
    ensures !(model.Some? && Truthy(model.value.uniprotAccession)) && (model.Some? && Truthy(model.value.entryId)) ==>
      r == model.value.entryId
    ensures !(model.Some? && Truthy(model.value.uniprotAccession)) && !(model.Some? && Truthy(model.value.entryId)) ==>
      r == qualifier
  {
    var m := if model.Some? then model.value else EmptyModel();
    var cands := [Some(m.uniprotAccession), Some(m.entryId)];
    assert forall i :: 0 <= i < |cands| ==> (Hit(cands[i], Truthy) <==> Truthy(cands[i].value));
    FirstTruthyAt(cands, Truthy, qualifier, 0);
    FirstTruthyAt(cands, Truthy, qualifier, 1);
    FirstTruthyAt(cands, Truthy, qualifier, 2);
    FirstTruthy(cands, Truthy, qualifier)
  }
}
