/**
 The front end's money strings (frontend/src/ui.jsx): amounts arrive as
 decimal text and are rounded and printed without ever becoming floats.
 */
module MoneyFormat {
  import opened Arithmetic
  import opened Decimals
  import opened Wrappers

  const THIN_SPACE: char := '\U{2009}'

  /** What the pattern captures, and what rounding returns: a sign and two runs of digits. */
  datatype Parts = Parts(negative: bool, whole: string, fraction: string)

  // -- digits and their values ---------------------------------------------------------

  predicate IsDigit(c: char) {
    '0' <= c <= '9'
  }

  predicate AllDigits(s: string) {
    forall i :: 0 <= i < |s| ==> IsDigit(s[i])
  }

  function Value(s: string): nat
    requires AllDigits(s)
  {
    if s == "" then 0 else 10 * Value(s[..|s| - 1]) + (s[|s| - 1] as nat - '0' as nat)
  }

  /** A BigInt's decimal text. */
  function Digits(n: nat): (s: string)
    ensures s != "" && AllDigits(s) && Value(s) == n
    ensures |s| > 1 ==> s[0] != '0'
  {
    var last := ('0' as nat + n % 10) as char;
    if n < 10 then [last] else
      var init := Digits(n / 10);
      assert (init + [last])[..|init|] == init;
      assert |init| > 1 || init[..|init| - 1] == "";
      init + [last]
  }

  function Zeros(n: nat): (s: string)
    ensures |s| == n && AllDigits(s)
    ensures forall i :: 0 <= i < n ==> s[i] == '0'
  {
    if n == 0 then "" else Zeros(n - 1) + "0"
  }

  function PadStart(s: string, width: nat): (r: string)
    ensures |r| == if |s| < width then width else |s|
    ensures |r| > width ==> r == s
  {
    if |s| < width then Zeros(width - |s|) + s else s
  }

  // -- reading -------------------------------------------------------------------------

  /** The characters String.prototype.trim removes. */
  predicate IsSpace(c: char) {
    || '\t' <= c <= '\r' || c == ' ' || c == '\U{A0}' || c == '\U{1680}' || '\U{2000}' <= c <= '\U{200A}'
    || c == '\U{2028}' || c == '\U{2029}' || c == '\U{202F}' || c == '\U{205F}' || c == '\U{3000}' || c == '\U{FEFF}'
  }

  function Trim(s: string): (r: string)
    ensures r != "" ==> !IsSpace(r[0]) && !IsSpace(r[|r| - 1])
  {
    if s != "" && IsSpace(s[0]) then Trim(s[1..])
    else if s != "" && IsSpace(s[|s| - 1]) then Trim(s[..|s| - 1])
    else s
  }

  /** Trimming cuts a stretch of spaces off either end and nothing else. */
  lemma {:induction false} TrimCutsOnlySpaces(s: string) returns (i: nat, j: nat)
    ensures i <= j <= |s| && Trim(s) == s[i..j]
    ensures forall k :: 0 <= k < i || j <= k < |s| ==> IsSpace(s[k])
  {
    if s != "" && IsSpace(s[0]) {
      i, j := TrimCutsOnlySpaces(s[1..]);
      assert s[1..][i..j] == s[i + 1..j + 1];
      assert forall k :: 1 <= k < |s| ==> s[k] == s[1..][k - 1];
      i, j := i + 1, j + 1;
    } else if s != "" && IsSpace(s[|s| - 1]) {
      i, j := TrimCutsOnlySpaces(s[..|s| - 1]);
      assert s[..|s| - 1][i..j] == s[i..j];
      assert forall k :: 0 <= k < |s| - 1 ==> s[k] == s[..|s| - 1][k];
    } else {
      i, j := 0, |s|;
    }
  }

  /** The length of the run of digits that starts a string. */
  function DigitRun(s: string): (n: nat)
    ensures n <= |s| && AllDigits(s[..n])
    ensures n < |s| ==> !IsDigit(s[n])
  {
    if s == "" || !IsDigit(s[0]) then 0
    else
      var rest := DigitRun(s[1..]);
      assert forall i :: 0 < i < rest + 1 ==> s[i] == s[1..][i - 1];
      1 + rest
  }

  function Unsigned(s: string): string {
    if s != "" && (s[0] == '+' || s[0] == '-') then s[1..] else s
  }

  /** Matches an optional sign, digits, and optionally a dot and more digits, to the end. */
  function Parse(s: string): (r: Option<Parts>)
    ensures r.Some? ==> AllDigits(r.value.whole) && AllDigits(r.value.fraction) && r.value.whole != ""
  {
    var body := Unsigned(s);
    var n := DigitRun(body);
    var rest := body[n..];
    if n == 0 then None
    else if rest == "" then Some(Parts(s[0] == '-', body[..n], ""))
    else if rest[0] == '.' && |rest| > 1 && AllDigits(rest[1..]) then Some(Parts(s[0] == '-', body[..n], rest[1..]))
    else None
  }

  /** The texts a plain decimal can be written as. */
  ghost predicate Reads(s: string, p: Parts) {
    && p.whole != "" && AllDigits(p.whole) && AllDigits(p.fraction)
    && var body := p.whole + (if p.fraction == "" then "" else "." + p.fraction);
       if p.negative then s == "-" + body else s == body || s == "+" + body
  }

  lemma RunStopsAt(digits: string, rest: string)
    requires AllDigits(digits) && (rest != "" ==> !IsDigit(rest[0]))
    ensures DigitRun(digits + rest) == |digits|
  {
    if digits != "" {
      assert (digits + rest)[1..] == digits[1..] + rest;
      RunStopsAt(digits[1..], rest);
    } else {
      assert digits + rest == rest;
    }
  }

  lemma ParseAcceptsDecimals(s: string, p: Parts)
    requires Reads(s, p)
    ensures Parse(s) == Some(p)
  {
    var rest := if p.fraction == "" then "" else "." + p.fraction;
    RunStopsAt(p.whole, rest);
    var body := p.whole + rest;
    assert body[0] == p.whole[0] && IsDigit(body[0]);
    assert Unsigned(s) == body && s[0] == (if p.negative then '-' else s[0]);
    assert body[..|p.whole|] == p.whole && body[|p.whole|..] == rest;
    assert rest != "" ==> rest[1..] == p.fraction;
    hide DigitRun;
  }

  lemma ParseAcceptsNothingElse(s: string, p: Parts)
    requires Parse(s) == Some(p)
    ensures Reads(s, p)
  {
    var body := Unsigned(s);
    var n := DigitRun(body);
    hide DigitRun;
    assert body == body[..n] + body[n..];
    assert p.fraction != "" ==> body[n..] == "." + p.fraction;
    assert s == body || s == [s[0]] + body;
  }

  /** Parse accepts exactly the plain decimals, and reads each one way only. */
  lemma ParseAcceptsExactlyDecimals(s: string, p: Parts)
    ensures Parse(s) == Some(p) <==> Reads(s, p)
  {
    hide Parse, Reads;
    if Reads(s, p) {
      ParseAcceptsDecimals(s, p);
    }
    if Parse(s) == Some(p) {
      ParseAcceptsNothingElse(s, p);
    }
  }

  // -- rounding --------------------------------------------------------------------------

  /** The value of a plain decimal in units of 10^-places, rounded half away from zero. */
  function RoundedUnits(p: Parts, places: nat): nat
    requires AllDigits(p.whole) && AllDigits(p.fraction)
  {
    RoundHalfUp(Value(p.whole + p.fraction) * Pow10(places), Pow10(|p.fraction|))
  }

  /** Those units written out again, with at least one digit before the point. */
  function Printed(p: Parts, places: nat): (r: Parts)
    requires AllDigits(p.whole) && AllDigits(p.fraction)
    ensures |r.fraction| == places && r.whole != ""
  {
    var padded := PadStart(Digits(RoundedUnits(p, places)), places + 1);
    Parts(p.negative, padded[..|padded| - places], padded[|padded| - places..])
  }

  /** round: one digit more than is kept decides the rest. */
  method Round(value: string, places: nat) returns (r: Option<Parts>)
    ensures Parse(Trim(value)).None? ==> r == None
    ensures Parse(Trim(value)).Some? ==> r == Some(Printed(Parse(Trim(value)).value, places))
  {
    hide Parse, Trim, RoundedUnits, Value, Digits, PadStart, Zeros;
    var parsed := Parse(Trim(value));
    if parsed.None? {
      return None;
    }
    var scaled := (parsed.value.fraction + Zeros(places + 1))[..places + 1];
    var digits := Value(parsed.value.whole + scaled);
    var decider := digits % 10;
    digits := digits / 10;
    if decider >= 5 {
      digits := digits + 1;
    }
    OneExtraDigitDecides(parsed.value, places);
    var padded := PadStart(Digits(digits), places + 1);
    var whole := if places == 0 then padded else padded[..|padded| - places];
    var fraction := if places == 0 then "" else padded[|padded| - places..];
    assert padded[..|padded|] == padded && padded[|padded|..] == "";
    assert digits == RoundedUnits(parsed.value, places);
    return Some(Parts(parsed.value.negative, whole, fraction));
  }

  lemma {:induction false} ValueAppend(a: string, b: string)
    requires AllDigits(a) && AllDigits(b)
    ensures AllDigits(a + b)
    ensures Value(a + b) == Value(a) * Pow10(|b|) + Value(b)
    ensures Value(b) < Pow10(|b|)
  {
    if b == "" {
      assert a + b == a;
    } else {
      var init := b[..|b| - 1];
      assert (a + b)[..|a + b| - 1] == a + init;
      ValueAppend(a, init);
      assert (a + b)[|a + b| - 1] == b[|b| - 1];
      OneDigitMore(Value(a), Value(init), Pow10(|init|));
    }
  }

  lemma OneDigitMore(a: nat, b: nat, scale: nat)
    ensures 10 * (a * scale + b) == a * (10 * scale) + 10 * b
  {
  }

  lemma {:induction false} ZerosAreWorthNothing(n: nat)
    ensures Value(Zeros(n)) == 0
  {
    if n > 0 {
      assert Zeros(n)[..n - 1] == Zeros(n - 1);
      ZerosAreWorthNothing(n - 1);
    }
  }

  /** Rounding v / (10 * m) half up looks only at the digit of v above m. */
  lemma DeciderDecides(v: nat, m: nat, n: nat, t: nat)
    requires v == n * m + t && t < m
    ensures RoundHalfUp(v, 10 * m) == n / 10 + (if n % 10 >= 5 then 1 else 0)
  {
    var q, e := n / 10, n % 10;
    var r := q + (if e >= 5 then 1 else 0);
    assert n == 10 * q + e;
    assert n * m == 10 * (q * m) + e * m;
    assert r * (10 * m) == 10 * (q * m) + (if e >= 5 then 10 * m else 0);
    MulMono(e, 4, m);
    MulMono(5, e, m);
    MulMono(e, 9, m);
    HalfUpIsUnique(v, 10 * m, r);
  }

  /** Dropping everything past one extra digit rounds exactly like keeping it all. */
  lemma OneExtraDigitDecides(p: Parts, places: nat)
    requires AllDigits(p.whole) && AllDigits(p.fraction)
    ensures
      var scaled := (p.fraction + Zeros(places + 1))[..places + 1];
      && AllDigits(p.whole + scaled)
      && var n := Value(p.whole + scaled);
         RoundedUnits(p, places) == n / 10 + (if n % 10 >= 5 then 1 else 0)
  {
    hide Value, Zeros, AllDigits;
    var k := places + 1;
    var long := p.fraction + Zeros(k);
    var scaled, tail := long[..k], long[k..];
    PaddingSplits(p.whole, p.fraction, Zeros(k), k);
    ValueAppend(p.whole + scaled, tail);
    ValueAppend(p.whole + p.fraction, Zeros(k));
    ZerosAreWorthNothing(k);
    DeciderDecides(Value(p.whole + long), Pow10(|tail|), Value(p.whole + scaled), Value(tail));
    SameQuotient(Value(p.whole + p.fraction), |p.fraction|, places, Value(p.whole + long), Pow10(|tail|));
  }

  lemma PaddingSplits(whole: string, fraction: string, zeros: string, k: nat)
    requires AllDigits(whole) && AllDigits(fraction) && AllDigits(zeros) && |zeros| == k
    ensures
      var long := fraction + zeros;
      && |long[k..]| == |fraction|
      && AllDigits(whole + fraction) && AllDigits(whole + long)
      && AllDigits(whole + long[..k]) && AllDigits(long[k..])
      && whole + long == (whole + long[..k]) + long[k..]
      && whole + long == (whole + fraction) + zeros
  {
  }

  /** The padded number over its padded scale is the number itself. */
  lemma SameQuotient(exact: nat, len: nat, places: nat, v: nat, m: nat)
    requires v == exact * Pow10(places + 1) && m == Pow10(len)
    ensures RoundHalfUp(v, 10 * m) == RoundHalfUp(exact * Pow10(places), Pow10(len))
  {
    assert Pow10(places + 1) == 10 * Pow10(places);
    Rotate(exact, Pow10(places), 10);
    HalfUpScales(exact * Pow10(places), Pow10(len), 10);
  }

  /** What is printed reads back as exactly the rounded value, in canonical form. */
  lemma PrintedIsTheRoundedValue(p: Parts, places: nat)
    requires AllDigits(p.whole) && AllDigits(p.fraction)
    ensures
      var r := Printed(p, places);
      && AllDigits(r.whole) && AllDigits(r.fraction) && AllDigits(r.whole + r.fraction)
      && Value(r.whole + r.fraction) == RoundedUnits(p, places)
      && (|r.whole| > 1 ==> r.whole[0] != '0')
      && r.negative == p.negative
  {
    hide RoundedUnits, Digits, PadStart, Value, AllDigits;
    var digits := Digits(RoundedUnits(p, places));
    var padded := PadStart(digits, places + 1);
    PaddingKeepsTheValue(digits, places + 1);
    Splits(padded, |padded| - places);
  }

  lemma Splits(s: string, n: nat)
    requires AllDigits(s) && n <= |s|
    ensures AllDigits(s[..n]) && AllDigits(s[n..]) && s[..n] + s[n..] == s
  {
  }

  lemma PaddingKeepsTheValue(s: string, width: nat)
    requires AllDigits(s)
    ensures AllDigits(PadStart(s, width)) && Value(PadStart(s, width)) == Value(s)
  {
    hide Value, Zeros, Pow10;
    if |s| < width {
      var zeros := Zeros(width - |s|);
      ZerosAreWorthNothing(width - |s|);
      ValueAppend(zeros, s);
      assert Value(zeros) * Pow10(|s|) == 0;
    }
  }

  // -- grouping ------------------------------------------------------------------------------

  /**
   Digits after the first: a thin space goes before a digit exactly if it
   and those that follow come in whole threes.
   */
  function GroupTail(s: string): string {
    if s == "" then "" else (if |s| % 3 == 0 then [THIN_SPACE] else "") + [s[0]] + GroupTail(s[1..])
  }

  function Group(whole: string): string {
    if whole == "" then "" else [whole[0]] + GroupTail(whole[1..])
  }

  /** What is left of a printed amount once the separators are taken out. */
  function Strip(s: string): string {
    if s == "" then "" else (if s[0] == THIN_SPACE then "" else [s[0]]) + Strip(s[1..])
  }

  lemma {:induction false} StripAppend(a: string, b: string)
    ensures Strip(a + b) == Strip(a) + Strip(b)
  {
    if a == "" {
      assert a + b == b;
    } else {
      assert (a + b)[1..] == a[1..] + b;
      StripAppend(a[1..], b);
    }
  }

  lemma {:induction false} StripLeavesAlone(s: string)
    requires forall i :: 0 <= i < |s| ==> s[i] != THIN_SPACE
    ensures Strip(s) == s
  {
    if s != "" {
      StripLeavesAlone(s[1..]);
    }
  }

  lemma GapStrips(gap: string, c: char)
    requires (gap == "" || gap == [THIN_SPACE]) && c != THIN_SPACE
    ensures Strip(gap + [c]) == [c]
  {
    StripAppend(gap, [c]);
  }

  lemma {:induction false} StripUndoesGroupTail(s: string)
    requires forall k :: 0 <= k < |s| ==> s[k] != THIN_SPACE
    ensures Strip(GroupTail(s)) == s
  {
    if s != "" {
      var gap := if |s| % 3 == 0 then [THIN_SPACE] else "";
      StripUndoesGroupTail(s[1..]);
      GapStrips(gap, s[0]);
      StripAppend(gap + [s[0]], GroupTail(s[1..]));
      hide Strip;
    }
  }

  /** Digits in groups: one to three first, then threes. */
  ghost predicate IsGrouping(groups: seq<string>, whole: string) {
    && groups != [] && 1 <= |groups[0]| <= 3
    && (forall i :: 0 < i < |groups| ==> |groups[i]| == 3)
    && Concat(groups) == whole
  }

  function Concat(groups: seq<string>): string {
    if groups == [] then "" else groups[0] + Concat(groups[1..])
  }

  function Join(groups: seq<string>): string {
    if groups == [] then "" else if |groups| == 1 then groups[0] else groups[0] + [THIN_SPACE] + Join(groups[1..])
  }

  lemma TailOf(c: char, s: string)
    ensures GroupTail([c] + s) == (if (|s| + 1) % 3 == 0 then [THIN_SPACE] else "") + [c] + GroupTail(s)
  {
    assert ([c] + s)[1..] == s;
  }

  lemma HeadFirst(g: string, rest: string)
    requires g != ""
    ensures [g[0]] + (g[1..] + rest) == g + rest
  {
  }

  /** Up to two digits before whole threes are printed as they are. */
  lemma {:induction false} TailSplits(g: string, rest: string)
    requires |g| <= 2 && |rest| % 3 == 0
    ensures GroupTail(g + rest) == g + GroupTail(rest)
  {
    if g == "" {
      assert g + rest == rest;
    } else {
      HeadFirst(g, rest);
      TailOf(g[0], g[1..] + rest);
      TailSplits(g[1..], rest);
      hide GroupTail;
      HeadFirst(g, GroupTail(rest));
    }
  }

  lemma ThreeMore(g: string, rest: string)
    requires |g| == 3 && |rest| % 3 == 0
    ensures GroupTail(g + rest) == [THIN_SPACE] + (g + GroupTail(rest))
  {
    hide GroupTail;
    HeadFirst(g, rest);
    TailOf(g[0], g[1..] + rest);
    TailSplits(g[1..], rest);
    HeadFirst(g, GroupTail(rest));
  }

  /** Whole threes are printed each after a separator. */
  lemma {:induction false} ThreesAreJoined(groups: seq<string>)
    requires forall i :: 0 <= i < |groups| ==> |groups[i]| == 3
    ensures |Concat(groups)| % 3 == 0
    ensures GroupTail(Concat(groups)) == if groups == [] then "" else [THIN_SPACE] + Join(groups)
  {
    if groups != [] {
      ThreesAreJoined(groups[1..]);
      ThreeMore(groups[0], Concat(groups[1..]));
      JoinSteps(groups);
      hide GroupTail, Join;
    }
  }

  lemma JoinSteps(groups: seq<string>)
    requires groups != []
    ensures Join(groups) == groups[0] + (if |groups| == 1 then "" else [THIN_SPACE] + Join(groups[1..]))
  {
  }

  /** A first group of up to three is printed as it is. */
  lemma FirstGroup(g: string, rest: string)
    requires 1 <= |g| <= 3 && |rest| % 3 == 0
    ensures Group(g + rest) == g + GroupTail(rest)
  {
    assert (g + rest)[1..] == g[1..] + rest;
    assert Group(g + rest) == [g[0]] + GroupTail(g[1..] + rest);
    hide Group, GroupTail;
    TailSplits(g[1..], rest);
    HeadFirst(g, GroupTail(rest));
  }

  /** Grouping is the one way to write the digits with one to three first and threes after. */
  lemma GroupJoinsTheOnlyGrouping(whole: string, groups: seq<string>)
    requires IsGrouping(groups, whole)
    ensures Group(whole) == Join(groups)
  {
    ThreesAreJoined(groups[1..]);
    FirstGroup(groups[0], Concat(groups[1..]));
    JoinSteps(groups);
    hide GroupTail, Group, Join;
  }

  lemma {:induction false} EveryNumberHasAGrouping(whole: string) returns (groups: seq<string>)
    requires whole != ""
    ensures IsGrouping(groups, whole)
    decreases |whole|
  {
    if |whole| <= 3 {
      groups := [whole];
      assert Concat(groups) == whole;
    } else {
      var n := |whole| - 3;
      var init := EveryNumberHasAGrouping(whole[..n]);
      groups := init + [whole[n..]];
      ConcatAppend(init, whole[n..]);
      assert whole[..n] + whole[n..] == whole;
    }
  }

  lemma {:induction false} ConcatAppend(groups: seq<string>, last: string)
    ensures Concat(groups + [last]) == Concat(groups) + last
  {
    if groups == [] {
      assert [] + [last] == [last];
    } else {
      assert (groups + [last])[1..] == groups[1..] + [last];
      ConcatAppend(groups[1..], last);
    }
  }

  // -- printing -----------------------------------------------------------------------------------

  function SignOf(p: Parts): string {
    if p.negative then "-" else ""
  }

  function PointAndFraction(p: Parts): string {
    if p.fraction == "" then "" else "." + p.fraction
  }

  function Shown(p: Parts): string {
    SignOf(p) + Group(p.whole) + PointAndFraction(p)
  }

  /** decimal: None stands for null and undefined. */
  method Decimal(value: Option<string>, places: nat) returns (r: Option<string>)
    ensures r.None? <==> value.None? || Parse(Trim(value.value)).None?
    ensures r.Some? ==> r.value == Shown(Printed(Parse(Trim(value.value)).value, places))
  {
    if value.None? || value.value == "" {
      return None;
    }
    var parts := Round(value.value, places);
    if parts.None? {
      return None;
    }
    return Some((if parts.value.negative then "-" else "") + Group(parts.value.whole) +
                (if parts.value.fraction != "" then "." + parts.value.fraction else ""));
  }

  /**
   The round trip: with its separators stripped, what is shown for any plain
   decimal parses back to exactly its half-away-from-zero rounding, with the
   same sign, and its whole part is grouped in threes.
   */
  lemma ShownReadsBackAsTheRounding(text: string, places: nat) returns (groups: seq<string>)
    requires Parse(text).Some?
    ensures
      var p := Parse(text).value;
      var shown := Printed(p, places);
      var back := Parse(Strip(Shown(shown)));
      && back.Some? && back == Some(shown)
      && |back.value.fraction| == places
      && Value(back.value.whole + back.value.fraction) == RoundedUnits(p, places)
      && IsGrouping(groups, shown.whole)
      && Shown(shown) == (if p.negative then "-" else "") + Join(groups)
                         + (if places == 0 then "" else "." + shown.fraction)
  {
    var shown := Printed(Parse(text).value, places);
    PrintedIsTheRoundedValue(Parse(text).value, places);
    groups := EveryNumberHasAGrouping(shown.whole);
    GroupJoinsTheOnlyGrouping(shown.whole, groups);
    ShownStripsToPlainText(shown);
    ParseAcceptsExactlyDecimals(Strip(Shown(shown)), shown);
    hide Printed, RoundedUnits;
  }

  lemma StripUndoesGroup(whole: string)
    requires AllDigits(whole)
    ensures Strip(Group(whole)) == whole
  {
    if whole != "" {
      StripAppend([whole[0]], GroupTail(whole[1..]));
      StripUndoesGroupTail(whole[1..]);
      assert Strip([whole[0]]) == [whole[0]];
    }
  }

  lemma PlainTextReads(p: Parts)
    requires p.whole != "" && AllDigits(p.whole) && AllDigits(p.fraction)
    ensures Reads((SignOf(p) + p.whole) + PointAndFraction(p), p)
  {
    var body := p.whole + PointAndFraction(p);
    assert (SignOf(p) + p.whole) + PointAndFraction(p) == SignOf(p) + body;
    assert p.negative ==> SignOf(p) + body == "-" + body;
    assert !p.negative ==> SignOf(p) + body == body;
    hide AllDigits;
  }

  lemma SignAndFractionHaveNoSpaces(p: Parts)
    requires AllDigits(p.fraction)
    ensures Strip(SignOf(p)) == SignOf(p) && Strip(PointAndFraction(p)) == PointAndFraction(p)
  {
    StripLeavesAlone(SignOf(p));
    StripLeavesAlone(PointAndFraction(p));
  }

  lemma ShownStripsToPlainText(p: Parts)
    requires p.whole != "" && AllDigits(p.whole) && AllDigits(p.fraction)
    ensures Reads(Strip(Shown(p)), p)
  {
    SignAndFractionHaveNoSpaces(p);
    PlainTextReads(p);
    StripUndoesGroup(p.whole);
    assert Shown(p) == (SignOf(p) + Group(p.whole)) + PointAndFraction(p);
    hide Strip, Group, AllDigits, Reads, Shown, SignOf, PointAndFraction;
    StripAppend(SignOf(p) + Group(p.whole), PointAndFraction(p));
    StripAppend(SignOf(p), Group(p.whole));
  }
}
