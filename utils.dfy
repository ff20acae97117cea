/**
 * lib/utils.ts: the time formatter, the class-name joiner, the truncation
 * helper and the message validator. `formatTime` reads the hours and minutes
 * of the local time from a `Date`; here they are its parameters, in the
 * ranges `getHours` and `getMinutes` return. `generateId` and `debounce` are
 * not part of this model.
 */
module Utils {
  import opened Optional
  import opened JsStrings
  import opened ChatTypes

  // ---------------------------------------------------------------------
  // formatTime
  // ---------------------------------------------------------------------

  const Morning: string := "오전"
  const Afternoon: string := "오후"

  /** `hours % 12 || 12`: the hour on a twelve-hour clock. */
  function DisplayHour(hours: nat): (h: nat)
    ensures 1 <= h <= 12 && h % 12 == hours % 12
  {
    if hours % 12 == 0 then 12 else hours % 12
  }

  /** `formatTime`: the period, a space, the hour, a colon and the minutes padded to two digits. */
  function FormatTime(hours: nat, minutes: nat): string
    requires hours < 24 && minutes < 60
  {
    (if hours >= 12 then Afternoon else Morning) + " " + NatToString(DisplayHour(hours)) + ":"
      + PadStart2(NatToString(minutes))
  }

  predicate Digits(s: string) {
    forall i :: 0 <= i < |s| ==> '0' <= s[i] <= '9'
  }

  /** The value of a string of decimal digits, read from the left. */
  function DecimalValue(s: string): nat
    requires Digits(s)
  {
    if s == [] then 0 else DecimalValue(s[..|s| - 1]) * 10 + (s[|s| - 1] - '0') as nat
  }

  lemma DigitValue(d: nat)
    requires d < 10
    ensures (DigitChar(d) - '0') as nat == d
  {
  }

  /** Reading the decimal rendering of a number gives the number back. */
  lemma {:induction false} DecimalRoundTrip(n: nat)
    ensures DecimalValue(NatToString(n)) == n
    decreases n
  {
    var s := NatToString(n);
    if n < 10 {
      DigitValue(n);
    } else {
      DecimalRoundTrip(n / 10);
      DigitValue(n % 10);
      assert s[..|s| - 1] == NatToString(n / 10);
    }
  }

  /** The minutes fill exactly two digits, and they read back as the minutes. */
  lemma PaddedMinutes(minutes: nat)
    requires minutes < 60
    ensures var m := PadStart2(NatToString(minutes));
      |m| == 2 && Digits(m) && DecimalValue(m) == minutes
  {
    DecimalRoundTrip(minutes);
    var s := NatToString(minutes);
    var m := PadStart2(s);
    if minutes < 10 {
      assert |s| == 1;
      assert m[..1] == "0";
      assert DecimalValue(m) == DecimalValue(s) by {
        assert m[1] == s[0];
      }
    } else {
      assert minutes / 10 < 10;
      assert |s| == 2;
    }
  }

  /** Where the parts of a formatted time sit: the period, a space, the hour, a colon and two minute digits. */
  lemma TimeLayout(period: string, h: string, m: string)
    requires |period| == 2 && |m| == 2
    ensures var r := period + " " + h + ":" + m;
      && r[..2] == period && r[2] == ' ' && r[3..|r| - 3] == h && r[|r| - 3] == ':' && r[|r| - 2..] == m
  {
    var r := period + " " + h + ":" + m;
    assert r[..2] == period;
    assert r[3..|r| - 3] == h;
    assert r[|r| - 2..] == m;
  }

  /**
   * What the formatted time says: its first two characters are "오후" exactly
   * in the afternoon, and after the space come the hour on a twelve-hour
   * clock and a colon followed by the two-digit minutes, both of which read
   * back to the clock time.
   */
  lemma FormatTimeReadsBack(hours: nat, minutes: nat)
    requires hours < 24 && minutes < 60
    ensures var r := FormatTime(hours, minutes);
      && |r| >= 7
      && (r[..2] == Afternoon <==> hours >= 12)
      && (r[..2] == Morning <==> hours < 12)
      && r[2] == ' ' && r[|r| - 3] == ':'
      && Digits(r[3..|r| - 3]) && Digits(r[|r| - 2..])
      && 1 <= DecimalValue(r[3..|r| - 3]) <= 12
      && DecimalValue(r[3..|r| - 3]) % 12 == hours % 12
      && DecimalValue(r[|r| - 2..]) == minutes
  {
    var period := if hours >= 12 then Afternoon else Morning;
    var h := NatToString(DisplayHour(hours));
    var m := PadStart2(NatToString(minutes));
    PaddedMinutes(minutes);
    DecimalRoundTrip(DisplayHour(hours));
    TimeLayout(period, h, m);
    assert Afternoon != Morning by {
      assert Afternoon[1] != Morning[1];
    }
    assert FormatTime(hours, minutes) == period + " " + h + ":" + m;
  }

  /** The two clock times the test suite shows. */
  lemma FormatTimeExamples()
    ensures FormatTime(8, 5) == "오전 8:05"
    ensures FormatTime(13, 7) == "오후 1:07"
  {
  }

  // ---------------------------------------------------------------------
  // cn
  // ---------------------------------------------------------------------

  /** One argument of `cn`: a string, or `undefined`, `null` or `false` (all `None`). */
  type ClassArg = Option<string>

  /** The arguments `filter(Boolean)` keeps: the non-empty strings, in order. */
  function Kept(classes: seq<ClassArg>): (r: seq<string>)
    ensures |r| <= |classes|
    ensures forall i :: 0 <= i < |r| ==> r[i] != []
  {
    if classes == [] then []
    else if classes[0].Some? && classes[0].value != [] then [classes[0].value] + Kept(classes[1..])
    else Kept(classes[1..])
  }

  /** `pieces.join(sep)` */
  function Join(pieces: seq<string>, sep: char): string {
    if |pieces| == 0 then [] else if |pieces| == 1 then pieces[0]
    else pieces[0] + [sep] + Join(pieces[1..], sep)
  }

  /** `cn(...classes)` */
  function Cn(classes: seq<ClassArg>): string {
    Join(Kept(classes), ' ')
  }

  /** `s.split(sep)` for a one-character separator: the pieces between separators. */
  function SplitOn(s: string, sep: char): (r: seq<string>)
    ensures |r| >= 1
  {
    if s == [] then [[]]
    else
      var rest := SplitOn(s[1..], sep);
      if s[0] == sep then [[]] + rest else [[s[0]] + rest[0]] + rest[1..]
  }

  lemma {:induction false} SplitWithout(s: string, sep: char)
    requires sep !in s
    ensures SplitOn(s, sep) == [s]
    decreases |s|
  {
    if s != [] {
      SplitWithout(s[1..], sep);
      assert [s[0]] + s[1..] == s;
    }
  }

  lemma {:induction false} SplitAtSeparator(a: string, sep: char, b: string)
    requires sep !in a
    ensures SplitOn(a + [sep] + b, sep) == [a] + SplitOn(b, sep)
    decreases |a|
  {
    var s := a + [sep] + b;
    if a == [] {
      assert s[1..] == b;
    } else {
      assert s[1..] == a[1..] + [sep] + b;
      SplitAtSeparator(a[1..], sep, b);
      assert [a[0]] + a[1..] == a;
    }
  }

  /** Splitting a join at its separator gives back the pieces, when none of them holds the separator. */
  lemma {:induction false} SplitJoin(pieces: seq<string>, sep: char)
    requires |pieces| >= 1
    requires forall i :: 0 <= i < |pieces| ==> sep !in pieces[i]
    ensures SplitOn(Join(pieces, sep), sep) == pieces
    decreases |pieces|
  {
    if |pieces| == 1 {
      SplitWithout(pieces[0], sep);
    } else {
      SplitJoin(pieces[1..], sep);
      SplitAtSeparator(pieces[0], sep, Join(pieces[1..], sep));
      assert [pieces[0]] + pieces[1..] == pieces;
    }
  }

  /**
   * `cn` keeps the truthy class names, in order, separated by single
   * spaces: it is empty when none is truthy, and otherwise splitting it on
   * spaces gives back exactly the truthy names (when none holds a space).
   */
  lemma CnReadsBack(classes: seq<ClassArg>)
    requires forall i :: 0 <= i < |classes| ==> classes[i].Some? ==> ' ' !in classes[i].value
    ensures Kept(classes) == [] ==> Cn(classes) == []
    ensures Kept(classes) != [] ==> SplitOn(Cn(classes), ' ') == Kept(classes)
  {
    if Kept(classes) != [] {
      KeptHasNoSpace(classes);
      SplitJoin(Kept(classes), ' ');
    }
  }

  lemma {:induction false} KeptHasNoSpace(classes: seq<ClassArg>)
    requires forall i :: 0 <= i < |classes| ==> classes[i].Some? ==> ' ' !in classes[i].value
    ensures forall i :: 0 <= i < |Kept(classes)| ==> ' ' !in Kept(classes)[i]
    decreases |classes|
  {
    if classes != [] {
      KeptHasNoSpace(classes[1..]);
    }
  }

  /** The call of the test suite: `cn('base', undefined, 'active', false, null, 'rounded')`. */
  lemma CnExample()
    ensures Cn([Some("base"), None, Some("active"), None, None, Some("rounded")]) == "base active rounded"
  {
    var classes := [Some("base"), None, Some("active"), None, None, Some("rounded")];
    assert Kept(classes[6..]) == [];
    assert Kept(classes[5..]) == ["rounded"];
    assert Kept(classes[4..]) == ["rounded"];
    assert Kept(classes[3..]) == ["rounded"];
    assert Kept(classes[2..]) == ["active", "rounded"];
    assert Kept(classes[1..]) == ["active", "rounded"];
    assert Kept(classes) == ["base", "active", "rounded"];
    assert Join(["rounded"], ' ') == "rounded";
    assert Join(["active", "rounded"], ' ') == "active rounded";
  }

  // ---------------------------------------------------------------------
  // truncateText
  // ---------------------------------------------------------------------

  /** `truncateText(text, maxLength)`: `slice` counts a negative end from the back. */
  function TruncateText(text: string, maxLength: int): (r: string)
    ensures |text| <= maxLength ==> r == text
    ensures maxLength < |text| ==> |r| == SliceEnd(|text|, maxLength) + 3 && r[|r| - 3..] == "..."
    ensures r[..|r| - (if |text| <= maxLength then 0 else 3)] <= text
  {
    if |text| <= maxLength then text else SliceTo(text, maxLength) + "..."
  }

  /** With a non-negative limit, truncating twice is truncating once. */
  lemma TruncateTextIdempotent(text: string, maxLength: int)
    requires 0 <= maxLength
    ensures TruncateText(TruncateText(text, maxLength), maxLength) == TruncateText(text, maxLength)
  {
    if maxLength < |text| {
      var r := TruncateText(text, maxLength);
      assert r[..maxLength] == text[..maxLength];
    }
  }

  // ---------------------------------------------------------------------
  // isValidMessage
  // ---------------------------------------------------------------------

  /** `isValidMessage`: not empty, not only whitespace, at most 4000 characters untrimmed. */
  predicate IsValidMessage(message: string) {
    if message == [] || |Trim(message)| == 0 then false
    else if |message| > MaxMessageLength then false
    else true
  }

  /** Valid exactly when some character is not whitespace and the raw length is within the limit. */
  lemma IsValidMessageIff(message: string)
    ensures IsValidMessage(message) <==> !AllWhitespace(message) && |message| <= MaxMessageLength
  {
    TrimEmptyIff(message);
  }
}
