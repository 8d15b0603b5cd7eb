/** Character-level text handling that the views rely on: the numeral filter on the
    BPM field's Characters, whitespace trimming, Swift's `Int(String)` parser, the decimal
    rendering of integers, `%02d` padding and lower-casing. Strings are sequences
    of Unicode scalar values; no normalisation is modelled. */
module Text {
  import opened Wrappers
  import opened Numeric

  /** Bounds of Swift's 64-bit `Int`. */
  const IntMax: int := 0x7FFF_FFFF_FFFF_FFFF
  const IntMin: int := -0x8000_0000_0000_0000

  predicate IsDigit(c: char) {
    '0' <= c <= '9'
  }

  predicate AllDigits(s: string) {
    forall i :: 0 <= i < |s| ==> IsDigit(s[i])
  }

  /** Unicode scalars other than the ASCII digits whose Numeric_Type is not None in the
      Unicode Character Database, version 15.0: the decimal digits of the other scripts,
      other digits (superscripts, circled and parenthesised numbers, mathematical
      digits), and numeric letters and symbols (Roman numerals, fractions, Han
      numerals). The ranges are arranged as a search tree on the code point. */
  predicate IsOtherNumeral(c: char) {
    if c < '\U{96F6}' then
      if c < '\U{3248}' then
        if c < '\U{16EE}' then
          if c < '\U{0BE6}' then
            if c < '\U{0966}' then
              || '\U{00B2}' <= c <= '\U{00B3}' || c == '\U{00B9}'
              || '\U{00BC}' <= c <= '\U{00BE}' || '\U{0660}' <= c <= '\U{0669}'
              || '\U{06F0}' <= c <= '\U{06F9}' || '\U{07C0}' <= c <= '\U{07C9}'
            else
              if c < '\U{0A66}' then
                || '\U{0966}' <= c <= '\U{096F}' || '\U{09E6}' <= c <= '\U{09EF}'
                || '\U{09F4}' <= c <= '\U{09F9}'
              else
                || '\U{0A66}' <= c <= '\U{0A6F}' || '\U{0AE6}' <= c <= '\U{0AEF}'
                || '\U{0B66}' <= c <= '\U{0B6F}' || '\U{0B72}' <= c <= '\U{0B77}'
          else
            if c < '\U{0DE6}' then
              || '\U{0BE6}' <= c <= '\U{0BF2}' || '\U{0C66}' <= c <= '\U{0C6F}'
              || '\U{0C78}' <= c <= '\U{0C7E}' || '\U{0CE6}' <= c <= '\U{0CEF}'
              || '\U{0D58}' <= c <= '\U{0D5E}' || '\U{0D66}' <= c <= '\U{0D78}'
            else
              if c < '\U{0F20}' then
                || '\U{0DE6}' <= c <= '\U{0DEF}' || '\U{0E50}' <= c <= '\U{0E59}'
                || '\U{0ED0}' <= c <= '\U{0ED9}'
              else
                || '\U{0F20}' <= c <= '\U{0F33}' || '\U{1040}' <= c <= '\U{1049}'
                || '\U{1090}' <= c <= '\U{1099}' || '\U{1369}' <= c <= '\U{137C}'
        else
          if c < '\U{2074}' then
            if c < '\U{1A80}' then
              || '\U{16EE}' <= c <= '\U{16F0}' || '\U{17E0}' <= c <= '\U{17E9}'
              || '\U{17F0}' <= c <= '\U{17F9}' || '\U{1810}' <= c <= '\U{1819}'
              || '\U{1946}' <= c <= '\U{194F}' || '\U{19D0}' <= c <= '\U{19DA}'
            else
              if c < '\U{1BB0}' then
                || '\U{1A80}' <= c <= '\U{1A89}' || '\U{1A90}' <= c <= '\U{1A99}'
                || '\U{1B50}' <= c <= '\U{1B59}'
              else
                || '\U{1BB0}' <= c <= '\U{1BB9}' || '\U{1C40}' <= c <= '\U{1C49}'
                || '\U{1C50}' <= c <= '\U{1C59}' || c == '\U{2070}'
          else
            if c < '\U{2776}' then
              || '\U{2074}' <= c <= '\U{2079}' || '\U{2080}' <= c <= '\U{2089}'
              || '\U{2150}' <= c <= '\U{2182}' || '\U{2185}' <= c <= '\U{2189}'
              || '\U{2460}' <= c <= '\U{249B}' || '\U{24EA}' <= c <= '\U{24FF}'
            else
              if c < '\U{3021}' then
                || '\U{2776}' <= c <= '\U{2793}' || c == '\U{2CFD}' || c == '\U{3007}'
              else
                || '\U{3021}' <= c <= '\U{3029}' || '\U{3038}' <= c <= '\U{303A}'
                || '\U{3192}' <= c <= '\U{3195}' || '\U{3220}' <= c <= '\U{3229}'
      else
        if c < '\U{5341}' then
          if c < '\U{4E8C}' then
            if c < '\U{382A}' then
              || '\U{3248}' <= c <= '\U{324F}' || '\U{3251}' <= c <= '\U{325F}'
              || '\U{3280}' <= c <= '\U{3289}' || '\U{32B1}' <= c <= '\U{32BF}'
              || c == '\U{3405}' || c == '\U{3483}'
            else
              if c < '\U{4E03}' then
                || c == '\U{382A}' || c == '\U{3B4D}' || c == '\U{4E00}'
              else
                || c == '\U{4E03}' || c == '\U{4E07}' || c == '\U{4E09}' || c == '\U{4E5D}'
          else
            if c < '\U{4F0D}' then
              || c == '\U{4E8C}' || c == '\U{4E94}' || c == '\U{4E96}'
              || '\U{4EBF}' <= c <= '\U{4EC0}' || c == '\U{4EDF}' || c == '\U{4EE8}'
            else
              if c < '\U{5146}' then
                || c == '\U{4F0D}' || c == '\U{4F70}' || c == '\U{5104}'
              else
                || c == '\U{5146}' || c == '\U{5169}' || c == '\U{516B}' || c == '\U{516D}'
        else
          if c < '\U{67D2}' then
            if c < '\U{58F9}' then
              || c == '\U{5341}' || '\U{5343}' <= c <= '\U{5345}' || c == '\U{534C}'
              || '\U{53C1}' <= c <= '\U{53C4}' || c == '\U{56DB}' || c == '\U{58F1}'
            else
              if c < '\U{5F0C}' then
                || c == '\U{58F9}' || c == '\U{5E7A}' || '\U{5EFE}' <= c <= '\U{5EFF}'
              else
                || '\U{5F0C}' <= c <= '\U{5F0E}' || c == '\U{5F10}' || c == '\U{62FE}'
                || c == '\U{634C}'
          else
            if c < '\U{8CAE}' then
              || c == '\U{67D2}' || c == '\U{6F06}' || c == '\U{7396}' || c == '\U{767E}'
              || c == '\U{8086}' || c == '\U{842C}'
            else
              if c < '\U{9621}' then
                || c == '\U{8CAE}' || c == '\U{8CB3}' || c == '\U{8D30}'
              else
                || c == '\U{9621}' || c == '\U{9646}' || c == '\U{964C}' || c == '\U{9678}'
    else
      if c < '\U{111E1}' then
        if c < '\U{104A0}' then
          if c < '\U{F9B2}' then
            if c < '\U{A9D0}' then
              || c == '\U{96F6}' || '\U{A620}' <= c <= '\U{A629}'
              || '\U{A6E6}' <= c <= '\U{A6EF}' || '\U{A830}' <= c <= '\U{A835}'
              || '\U{A8D0}' <= c <= '\U{A8D9}' || '\U{A900}' <= c <= '\U{A909}'
            else
              if c < '\U{ABF0}' then
                || '\U{A9D0}' <= c <= '\U{A9D9}' || '\U{A9F0}' <= c <= '\U{A9F9}'
                || '\U{AA50}' <= c <= '\U{AA59}'
              else
                || '\U{ABF0}' <= c <= '\U{ABF9}' || c == '\U{F96B}' || c == '\U{F973}'
                || c == '\U{F978}'
          else
            if c < '\U{10140}' then
              || c == '\U{F9B2}' || c == '\U{F9D1}' || c == '\U{F9D3}' || c == '\U{F9FD}'
              || '\U{FF10}' <= c <= '\U{FF19}' || '\U{10107}' <= c <= '\U{10133}'
            else
              if c < '\U{10320}' then
                || '\U{10140}' <= c <= '\U{10178}' || '\U{1018A}' <= c <= '\U{1018B}'
                || '\U{102E1}' <= c <= '\U{102FB}'
              else
                || '\U{10320}' <= c <= '\U{10323}' || c == '\U{10341}' || c == '\U{1034A}'
                || '\U{103D1}' <= c <= '\U{103D5}'
        else
          if c < '\U{10B58}' then
            if c < '\U{109BC}' then
              || '\U{104A0}' <= c <= '\U{104A9}' || '\U{10858}' <= c <= '\U{1085F}'
              || '\U{10879}' <= c <= '\U{1087F}' || '\U{108A7}' <= c <= '\U{108AF}'
              || '\U{108FB}' <= c <= '\U{108FF}' || '\U{10916}' <= c <= '\U{1091B}'
            else
              if c < '\U{10A40}' then
                || '\U{109BC}' <= c <= '\U{109BD}' || '\U{109C0}' <= c <= '\U{109CF}'
                || '\U{109D2}' <= c <= '\U{109FF}'
              else
                || '\U{10A40}' <= c <= '\U{10A48}' || '\U{10A7D}' <= c <= '\U{10A7E}'
                || '\U{10A9D}' <= c <= '\U{10A9F}' || '\U{10AEB}' <= c <= '\U{10AEF}'
          else
            if c < '\U{10F1D}' then
              || '\U{10B58}' <= c <= '\U{10B5F}' || '\U{10B78}' <= c <= '\U{10B7F}'
              || '\U{10BA9}' <= c <= '\U{10BAF}' || '\U{10CFA}' <= c <= '\U{10CFF}'
              || '\U{10D30}' <= c <= '\U{10D39}' || '\U{10E60}' <= c <= '\U{10E7E}'
            else
              if c < '\U{11052}' then
                || '\U{10F1D}' <= c <= '\U{10F26}' || '\U{10F51}' <= c <= '\U{10F54}'
                || '\U{10FC5}' <= c <= '\U{10FCB}'
              else
                || '\U{11052}' <= c <= '\U{1106F}' || '\U{110F0}' <= c <= '\U{110F9}'
                || '\U{11136}' <= c <= '\U{1113F}' || '\U{111D0}' <= c <= '\U{111D9}'
      else
        if c < '\U{1E4F0}' then
          if c < '\U{11FC0}' then
            if c < '\U{11730}' then
              || '\U{111E1}' <= c <= '\U{111F4}' || '\U{112F0}' <= c <= '\U{112F9}'
              || '\U{11450}' <= c <= '\U{11459}' || '\U{114D0}' <= c <= '\U{114D9}'
              || '\U{11650}' <= c <= '\U{11659}' || '\U{116C0}' <= c <= '\U{116C9}'
            else
              if c < '\U{11C50}' then
                || '\U{11730}' <= c <= '\U{1173B}' || '\U{118E0}' <= c <= '\U{118F2}'
                || '\U{11950}' <= c <= '\U{11959}'
              else
                || '\U{11C50}' <= c <= '\U{11C6C}' || '\U{11D50}' <= c <= '\U{11D59}'
                || '\U{11DA0}' <= c <= '\U{11DA9}' || '\U{11F50}' <= c <= '\U{11F59}'
          else
            if c < '\U{16E80}' then
              || '\U{11FC0}' <= c <= '\U{11FD4}' || '\U{12400}' <= c <= '\U{1246E}'
              || '\U{16A60}' <= c <= '\U{16A69}' || '\U{16AC0}' <= c <= '\U{16AC9}'
              || '\U{16B50}' <= c <= '\U{16B59}' || '\U{16B5B}' <= c <= '\U{16B61}'
            else
              if c < '\U{1D360}' then
                || '\U{16E80}' <= c <= '\U{16E96}' || '\U{1D2C0}' <= c <= '\U{1D2D3}'
                || '\U{1D2E0}' <= c <= '\U{1D2F3}'
              else
                || '\U{1D360}' <= c <= '\U{1D378}' || '\U{1D7CE}' <= c <= '\U{1D7FF}'
                || '\U{1E140}' <= c <= '\U{1E149}' || '\U{1E2F0}' <= c <= '\U{1E2F9}'
        else
          if c < '\U{20121}' then
            if c < '\U{1ED01}' then
              || '\U{1E4F0}' <= c <= '\U{1E4F9}' || '\U{1E8C7}' <= c <= '\U{1E8CF}'
              || '\U{1E950}' <= c <= '\U{1E959}' || '\U{1EC71}' <= c <= '\U{1ECAB}'
              || '\U{1ECAD}' <= c <= '\U{1ECAF}' || '\U{1ECB1}' <= c <= '\U{1ECB4}'
            else
              if c < '\U{1FBF0}' then
                || '\U{1ED01}' <= c <= '\U{1ED2D}' || '\U{1ED2F}' <= c <= '\U{1ED3D}'
                || '\U{1F100}' <= c <= '\U{1F10C}'
              else
                || '\U{1FBF0}' <= c <= '\U{1FBF9}' || c == '\U{20001}' || c == '\U{20064}'
                || c == '\U{200E2}'
          else
            if c < '\U{20AFD}' then
              || c == '\U{20121}' || c == '\U{2092A}' || c == '\U{20983}'
              || c == '\U{2098C}' || c == '\U{2099C}' || c == '\U{20AEA}'
            else
              if c < '\U{22998}' then
                || c == '\U{20AFD}' || c == '\U{20B19}' || c == '\U{22390}'
              else
                || c == '\U{22998}' || c == '\U{23B1B}' || c == '\U{2626D}'
                || c == '\U{2F890}'
  }

  /** `Unicode.Scalar.Properties.numericType != nil`: an ASCII digit or another numeral. */
  predicate IsNumber(c: char) {
    IsDigit(c) || IsOtherNumeral(c)
  }

  /** The other numerals are neither ASCII, nor signs, nor whitespace. */
  lemma OtherNumeralIsNotAscii(c: char)
    requires IsOtherNumeral(c)
    ensures c as int >= 128 && c != '+' && c != '-' && !IsWhitespace(c)
  {
  }

  /** `Int(_:)` reads nothing but ASCII digits and a leading sign. */
  lemma ParseRejectsNonDigit(t: string, c: char)
    requires c in t && !IsDigit(c) && c != '+' && c != '-'
    ensures ParseInt(t).None?
  {
    var i :| 0 <= i < |t| && t[i] == c;
  }

  /** `Int(_:)` reads no numeral other than the ASCII digits. */
  lemma ParseRejectsOtherNumeral(t: string, c: char)
    requires c in t && IsOtherNumeral(c)
    ensures ParseInt(t).None?
  {
    OtherNumeralIsNotAscii(c);
    ParseRejectsNonDigit(t, c);
  }

  /** Swift's `Character`: one extended grapheme cluster, as its non-empty sequence of
      scalars. A `String` is a sequence of them; how typed text splits into Characters
      is the framework's answer and an input here. */
  type Grapheme = g: seq<char> | |g| > 0 witness "0"

  /** `Character.isNumber`: the Character's first scalar has a numeric type, whatever
      marks follow it. */
  predicate IsNumberCharacter(g: Grapheme) {
    IsNumber(g[0])
  }

  /** Within a Character led by a numeral, every later scalar is a combining mark, a
      variation selector or an enclosing mark such as the keycap, and so neither ASCII
      nor whitespace: by the grapheme rules of Unicode Standard Annex #29 only Extend,
      ZWJ and SpacingMark scalars continue a cluster that starts with a numeral. */
  predicate NumeralLedWellFormed(g: Grapheme) {
    IsNumber(g[0]) ==> forall i :: 1 <= i < |g| ==> g[i] as int >= 128 && !IsWhitespace(g[i])
  }

  /** The scalars of a sequence of Characters: the String they make up. */
  function Flatten(gs: seq<Grapheme>): (s: string)
    ensures |s| >= |gs|
    ensures forall g, c :: g in gs && c in g ==> c in s
  {
    if |gs| == 0 then "" else gs[0] + Flatten(gs[1..])
  }

  /** The BPM text field's filter, `filter(\.isNumber)`: keeps, in order and whole, the
      Characters whose first scalar is a numeral. */
  function NumbersOnly(gs: seq<Grapheme>): (r: seq<Grapheme>)
    ensures forall i :: 0 <= i < |r| ==> IsNumberCharacter(r[i])
    ensures |r| <= |gs|
    ensures forall g :: g in r <==> g in gs && IsNumberCharacter(g)
  {
    if |gs| == 0 then []
    else if IsNumberCharacter(gs[0]) then [gs[0]] + NumbersOnly(gs[1..])
    else NumbersOnly(gs[1..])
  }

  /** Text made only of numeral-led Characters passes the filter unchanged. */
  lemma {:induction false} NumbersOnlyKeepsNumberStrings(gs: seq<Grapheme>)
    requires forall i :: 0 <= i < |gs| ==> IsNumberCharacter(gs[i])
    ensures NumbersOnly(gs) == gs
  {
    if |gs| > 0 {
      NumbersOnlyKeepsNumberStrings(gs[1..]);
      assert [gs[0]] + gs[1..] == gs;
    }
  }

  /** Filtering twice is filtering once. */
  lemma NumbersOnlyIdempotent(gs: seq<Grapheme>)
    ensures NumbersOnly(NumbersOnly(gs)) == NumbersOnly(gs)
  {
    NumbersOnlyKeepsNumberStrings(NumbersOnly(gs));
  }

  /** The text of some Characters is all ASCII digits exactly when each of them is. */
  lemma {:induction false} FlattenAllDigits(gs: seq<Grapheme>)
    ensures AllDigits(Flatten(gs)) <==> forall g :: g in gs ==> AllDigits(g)
  {
    if |gs| > 0 {
      FlattenAllDigits(gs[1..]);
      var s := Flatten(gs);
      assert s == gs[0] + Flatten(gs[1..]);
      if AllDigits(s) {
        assert forall i :: 0 <= i < |gs[0]| ==> s[i] == gs[0][i];
        assert forall i :: 0 <= i < |Flatten(gs[1..])| ==> s[|gs[0]| + i] == Flatten(gs[1..])[i];
        forall g | g in gs
          ensures AllDigits(g)
        {
          if g != gs[0] {
            assert g in gs[1..];
          }
        }
      } else {
        var i :| 0 <= i < |s| && !IsDigit(s[i]);
        if i < |gs[0]| {
          assert !AllDigits(gs[0]);
        } else {
          assert Flatten(gs[1..])[i - |gs[0]|] == s[i];
          assert !AllDigits(Flatten(gs[1..]));
          var g :| g in gs[1..] && !AllDigits(g);
          assert g in gs;
        }
      }
    }
  }

  /** A non-digit scalar in the text of numeral-led, well-formed Characters is never
      whitespace or a sign: it is either another numeral leading its Character or a
      mark continuing one. */
  lemma {:induction false} FlattenNonDigit(gs: seq<Grapheme>, c: char)
    requires forall g :: g in gs ==> IsNumberCharacter(g) && NumeralLedWellFormed(g)
    requires c in Flatten(gs) && !IsDigit(c)
    ensures !IsWhitespace(c) && c != '+' && c != '-'
  {
    assert |gs| > 0;
    var s := Flatten(gs);
    assert s == gs[0] + Flatten(gs[1..]);
    if c in gs[0] {
      var j :| 0 <= j < |gs[0]| && gs[0][j] == c;
      assert gs[0] in gs;
      if j == 0 {
        OtherNumeralIsNotAscii(c);
      }
    } else {
      assert c in Flatten(gs[1..]);
      forall g | g in gs[1..]
        ensures IsNumberCharacter(g) && NumeralLedWellFormed(g)
      {
        assert g in gs;
      }
      FlattenNonDigit(gs[1..], c);
    }
  }

  /** The filtered text is made of ASCII digits exactly when every numeral-led
      Character typed is made of ASCII digits: a single other numeral, or a mark on a
      digit, survives the filter. */
  lemma NumbersOnlyAllDigits(gs: seq<Grapheme>)
    ensures AllDigits(Flatten(NumbersOnly(gs))) <==>
              forall g :: g in gs && IsNumberCharacter(g) ==> AllDigits(g)
  {
    FlattenAllDigits(NumbersOnly(gs));
  }

  /** The characters of Foundation's `.whitespacesAndNewlines` set. */
  predicate IsWhitespace(c: char) {
    || c == ' ' || c == '\t' || c == '\n' || c == '\r'
    || c == '\U{0B}' || c == '\U{0C}' || c == '\U{85}' || c == '\U{A0}'
    || c == '\U{1680}' || ('\U{2000}' <= c <= '\U{200A}')
    || c == '\U{2028}' || c == '\U{2029}' || c == '\U{202F}' || c == '\U{205F}'
    || c == '\U{3000}'
  }

  function TrimLeft(s: string): (r: string)
    ensures |r| <= |s| && r == s[|s| - |r|..]
    ensures forall i :: 0 <= i < |s| - |r| ==> IsWhitespace(s[i])
    ensures |r| > 0 ==> !IsWhitespace(r[0])
  {
    if |s| > 0 && IsWhitespace(s[0]) then TrimLeft(s[1..]) else s
  }

  function TrimRight(s: string): (r: string)
    ensures |r| <= |s| && r == s[..|r|]
    ensures forall i :: |r| <= i < |s| ==> IsWhitespace(s[i])
    ensures |r| > 0 ==> !IsWhitespace(r[|r| - 1])
  {
    if |s| > 0 && IsWhitespace(s[|s| - 1]) then TrimRight(s[..|s| - 1]) else s
  }

  /** `trimmingCharacters(in: .whitespacesAndNewlines)`: the result neither starts
      nor ends with whitespace, and it is empty exactly when `s` is all whitespace. */
  function Trim(s: string): (r: string)
    ensures |r| > 0 ==> !IsWhitespace(r[0]) && !IsWhitespace(r[|r| - 1])
    ensures |r| == 0 <==> forall i :: 0 <= i < |s| ==> IsWhitespace(s[i])
  {
    var l := TrimLeft(s);
    var r := TrimRight(l);
    assert |l| > 0 ==> !IsWhitespace(l[0]);
    assert |l| > 0 ==> l[0] == s[|s| - |l|];
    r
  }

  /** Trimming only removes whitespace: every other character stays. */
  lemma TrimKeepsNonWhitespace(s: string, c: char)
    requires c in s && !IsWhitespace(c)
    ensures c in Trim(s)
  {
    var l := TrimLeft(s);
    var i :| 0 <= i < |s| && s[i] == c;
    var j := i - (|s| - |l|);
    assert 0 <= j < |l| && l[j] == c;
    var r := TrimRight(l);
    assert j < |r| && r[j] == c;
    assert Trim(s) == r;
  }

  /** Trimming is idempotent. */
  lemma TrimIdempotent(s: string)
    ensures Trim(Trim(s)) == Trim(s)
  {
    var t := Trim(s);
    assert TrimLeft(t) == t;
    assert TrimRight(t) == t;
  }

  function DigitValue(c: char): (d: nat)
    requires IsDigit(c)
    ensures d < 10
  {
    (c as int) - ('0' as int)
  }

  function DigitChar(d: nat): (c: char)
    requires d < 10
    ensures IsDigit(c) && DigitValue(c) == d
  {
    ('0' as int + d) as char
  }

  /** The value of a run of decimal digits, most significant first. */
  function DigitsValue(s: string): nat
    requires AllDigits(s)
  {
    if |s| == 0 then 0 else DigitsValue(s[..|s| - 1]) * 10 + DigitValue(s[|s| - 1])
  }

  /** Swift's `Int(_ description: String)`: an optional `+` or `-` followed by at
      least one ASCII digit, whose value fits in 64 bits; anything else is nil. */
  function ParseInt(s: string): (r: Option<int>)
    ensures r.Some? ==> IntMin <= r.value <= IntMax
    ensures r.Some? ==> |s| > 0 && !IsWhitespace(s[0]) && !IsWhitespace(s[|s| - 1])
    ensures |s| > 0 && AllDigits(s) ==>
              (r.Some? <==> DigitsValue(s) <= IntMax) && (r.Some? ==> r.value == DigitsValue(s))
    ensures |s| == 0 ==> r.None?
    ensures r.Some? ==> forall i :: 0 <= i < |s| ==> IsDigit(s[i]) || (i == 0 && (s[0] == '+' || s[0] == '-'))
  {
    if |s| > 0 && (s[0] == '+' || s[0] == '-') then
      var body := s[1..];
      if |body| > 0 && AllDigits(body) then
        var mag: int := DigitsValue(body);
        var v := if s[0] == '-' then -mag else mag;
        if IntMin <= v <= IntMax then Some(v) else None
      else
        None
    else if |s| > 0 && AllDigits(s) then
      var v := DigitsValue(s);
      if v <= IntMax then Some(v) else None
    else
      None
  }

  /** The decimal rendering of a natural number, without leading zeros. */
  function NatToDecimal(n: nat): (r: string)
    ensures |r| > 0 && AllDigits(r)
    ensures DigitsValue(r) == n
    ensures r[0] == '0' ==> n == 0 && r == "0"
    ensures n < 10 ==> |r| == 1
    ensures 10 <= n < 100 ==> |r| == 2
  {
    if n < 10 then [DigitChar(n)]
    else
      var r := NatToDecimal(n / 10) + [DigitChar(n % 10)];
      assert r[..|r| - 1] == NatToDecimal(n / 10);
      r
  }

  /** Swift's string interpolation of an `Int`: a `-` sign for negatives, then the digits. */
  function IntDescription(n: int): string {
    if n < 0 then "-" + NatToDecimal(-n) else NatToDecimal(n)
  }

  /** Rendering a 64-bit integer and parsing it back gives the same integer. */
  lemma ParseIntDescription(n: int)
    requires IntMin <= n <= IntMax
    ensures ParseInt(IntDescription(n)) == Some(n)
  {
    if n < 0 {
      var d := IntDescription(n);
      assert d[1..] == NatToDecimal(-n);
    }
  }

  /** `String(format: "%02d", n)`: the decimal digits of `n` zero-padded to width two,
      the sign counting towards the width. */
  function PadTwo(n: int): (r: string)
    ensures 0 <= n < 100 ==> |r| == 2 && AllDigits(r) && DigitsValue(r) == n
    ensures 100 <= n ==> r == NatToDecimal(n)
  {
    var digits := NatToDecimal(if n < 0 then -n else n);
    var sign := if n < 0 then "-" else "";
    var pad := if |sign| + |digits| < 2 then "0" else "";
    sign + pad + digits
  }

  function LowerChar(c: char): char {
    if 'A' <= c <= 'Z' then (c as int + 32) as char else c
  }

  /** `lowercased()` on the Latin capital letters A to Z; other characters are kept. */
  function Lowercase(s: string): (r: string)
    ensures |r| == |s|
    ensures forall i :: 0 <= i < |s| ==> r[i] == LowerChar(s[i])
  {
    seq(|s|, i requires 0 <= i < |s| => LowerChar(s[i]))
  }

  /** Lower-casing twice is lower-casing once. */
  lemma LowercaseIdempotent(s: string)
    ensures Lowercase(Lowercase(s)) == Lowercase(s)
  {
  }

  /** `String(format: "%d:%02d", s / 60, s % 60)` with Swift's truncating `/` and `%`:
      for a non-negative count of seconds, the minutes, a colon and the seconds as two
      digits, from which the count reads back. */
  function MinutesSeconds(s: int): (r: string)
    ensures 0 <= s <= IntMax ==>
              && |r| >= 4 && r[|r| - 3] == ':'
              && ParseInt(r[..|r| - 3]) == Some(s / 60)
              && AllDigits(r[|r| - 2..]) && DigitsValue(r[|r| - 2..]) == s % 60
  {
    MinutesSecondsParts(s);
    IntDescription(Quot(s, 60)) + ":" + PadTwo(Rem(s, 60))
  }

  lemma MinutesSecondsParts(s: int)
    ensures 0 <= s <= IntMax ==>
              var r := IntDescription(Quot(s, 60)) + ":" + PadTwo(Rem(s, 60));
              && |r| >= 4 && r[|r| - 3] == ':'
              && ParseInt(r[..|r| - 3]) == Some(s / 60)
              && AllDigits(r[|r| - 2..]) && DigitsValue(r[|r| - 2..]) == s % 60
  {
    if 0 <= s <= IntMax {
      var r := IntDescription(Quot(s, 60)) + ":" + PadTwo(Rem(s, 60));
      assert Rem(s, 60) == s % 60;
      assert r[..|r| - 3] == IntDescription(s / 60);
      assert r[|r| - 2..] == PadTwo(s % 60);
      ParseIntDescription(s / 60);
    }
  }
}
