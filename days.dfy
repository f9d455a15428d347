/** Day-name helpers of the card: `normalizeDayName`, `getDayIndex` and
    `getOrderedDayIndexes` of the two current builds, and the stricter
    `normalizeDayName`, exact `getDayIndex` and header rotation of the older
    www variant. Week days are numbered as `Date.getDay` numbers them,
    Sunday = 0 to Saturday = 6. */
module Days {
  import opened Js

  const ShortDays: seq<string> := ["Sun", "Mon", "Tue", "Wed", "Thu", "Fri", "Sat"]
  const LongDays: seq<string> :=
    ["Sunday", "Monday", "Tuesday", "Wednesday", "Thursday", "Friday", "Saturday"]

  /** The own keys of the source's `dayMap` object literal. */
  const ShortKeys: seq<string> := ["sun", "mon", "tue", "wed", "thu", "fri", "sat"]
  const LongKeys: seq<string> :=
    ["sunday", "monday", "tuesday", "wednesday", "thursday", "friday", "saturday"]

  /** Keys that every object literal inherits from `Object.prototype` and
      that are written in lower case only, so `dayMap[s.toLowerCase()]` can
      reach them: `dayMap.constructor` is `Object`, `dayMap.__proto__` is
      `Object.prototype`, both truthy. */
  const InheritedKeys: seq<string> := ["constructor", "__proto__"]

  function Lowered(xs: seq<string>): (r: seq<string>)
    ensures |r| == |xs|
  {
    seq(|xs|, i requires 0 <= i < |xs| => Lower(xs[i]))
  }

  lemma LoweredNames()
    ensures Lowered(ShortDays) == ShortKeys
    ensures Lowered(LongDays) == LongKeys
  {
    assert Lower("Sun") == "sun";
    assert Lower("Mon") == "mon";
    assert Lower("Tue") == "tue";
    assert Lower("Wed") == "wed";
    assert Lower("Thu") == "thu";
    assert Lower("Fri") == "fri";
    assert Lower("Sat") == "sat";
    assert Lower("Sunday") == "sunday";
    assert Lower("Monday") == "monday";
    assert Lower("Tuesday") == "tuesday";
    assert Lower("Wednesday") == "wednesday";
    assert Lower("Thursday") == "thursday";
    assert Lower("Friday") == "friday";
    assert Lower("Saturday") == "saturday";
  }

  /** Which week day a lower-case key names: a short key first, then a long
      one; -1 for any other key. */
  function DayKeyIndex(key: string): (r: int)
    ensures -1 <= r < 7
    ensures r == -1 <==> key !in ShortKeys && key !in LongKeys
    ensures r >= 0 ==> key == ShortKeys[r] || key == LongKeys[r]
  {
    var i := IndexOf(ShortKeys, key);
    if i != -1 then i else IndexOf(LongKeys, key)
  }

  /** `normalizeDayName` of the two current builds, with its lookup limited
      to the own keys of `dayMap` (see NormalizeDayNameAsWritten for the
      lookup as the source writes it): the short name of a case-insensitive
      short or long day name; `undefined` for a falsy value, a non-string
      or any other string. */
  function NormalizeDayName(v: Val): (r: Option<string>)
    ensures r.Some? ==> r.value in ShortDays
    ensures r.Some? <==> v.Str? && (Lower(v.s) in ShortKeys || Lower(v.s) in LongKeys)
  {
    if !(v.Str? && Truthy(v)) then None
    else
      var i := DayKeyIndex(Lower(v.s));
      if i == -1 then None else Some(ShortDays[i])
  }

  /** What `dayMap[dayName.toLowerCase()]` yields as the source writes it. */
  datatype DayMapHit = Day(short: string) | Inherited(member: string) | Miss

  function NormalizeDayNameAsWritten(v: Val): DayMapHit {
    if !(v.Str? && Truthy(v)) then Miss
    else
      var key := Lower(v.s);
      var i := DayKeyIndex(key);
      if i != -1 then Day(ShortDays[i])
      else if key in InheritedKeys then Inherited(key)
      else Miss
  }

  /** The source's lookup returns a truthy non-day for "Constructor" where
      the evidently intended result is `undefined`. */
  lemma NormalizeAsWrittenLeaksInheritedKey()
    ensures NormalizeDayNameAsWritten(Str("Constructor")) == Inherited("constructor")
    ensures NormalizeDayName(Str("Constructor")) == None
  {
    LowerConstructor();
    ConstructorIsNoDay();
    assert "constructor" == InheritedKeys[0];
  }

  lemma LowerConstructor()
    ensures Lower("Constructor") == "constructor"
  {
    var key := Lower("Constructor");
    forall i | 0 <= i < 11 ensures key[i] == "constructor"[i] {
      assert key[i] == LowerChar("Constructor"[i]);
    }
  }

  lemma ConstructorIsNoDay()
    ensures DayKeyIndex("constructor") == -1
  {
    KeyLengths();
    assert "constructor" !in ShortKeys && "constructor" !in LongKeys;
  }

  /** Short keys have three letters, long keys six to nine. */
  lemma KeyLengths()
    ensures forall k :: 0 <= k < 7 ==> |ShortKeys[k]| == 3 && 6 <= |LongKeys[k]| <= 9
  {
  }

  /** Away from the two inherited keys, the corrected lookup and the source's agree. */
  lemma NormalizeAsWrittenAgreesElsewhere(v: Val)
    requires !(v.Str? && Lower(v.s) in InheritedKeys)
    ensures NormalizeDayNameAsWritten(v) ==
              (if NormalizeDayName(v).Some? then Day(NormalizeDayName(v).value) else Miss)
  {
  }

  /** Distinct entries of a list are found at their own position. */
  lemma IndexOfDistinct<T>(xs: seq<T>, i: int)
    requires 0 <= i < |xs|
    requires forall a, b :: 0 <= a < b < |xs| ==> xs[a] != xs[b]
    ensures IndexOf(xs, xs[i]) == i
  {
  }

  lemma KeysDistinct()
    ensures forall a, b :: 0 <= a < b < 7 ==> ShortKeys[a] != ShortKeys[b]
    ensures forall a, b :: 0 <= a < b < 7 ==> LongKeys[a] != LongKeys[b]
    ensures forall a, b :: 0 <= a < 7 && 0 <= b < 7 ==> ShortKeys[a] != LongKeys[b]
  {
    forall a, b | 0 <= a < b < 7 ensures ShortKeys[a] != ShortKeys[b] {
      assert ShortKeys[a][0] != ShortKeys[b][0] || ShortKeys[a][1] != ShortKeys[b][1];
    }
    forall a, b | 0 <= a < b < 7 ensures LongKeys[a] != LongKeys[b] {
      assert LongKeys[a][0] != LongKeys[b][0] || LongKeys[a][1] != LongKeys[b][1];
    }
    forall a, b | 0 <= a < 7 && 0 <= b < 7 ensures ShortKeys[a] != LongKeys[b] {
      assert |ShortKeys[a]| == 3 < |LongKeys[b]|;
    }
  }

  /** Each short name is found at its own position. */
  lemma ShortDayIndex(i: int)
    requires 0 <= i < 7
    ensures IndexOf(ShortDays, ShortDays[i]) == i
  {
    forall a, b | 0 <= a < b < 7 ensures ShortDays[a] != ShortDays[b] {
      assert ShortDays[a][0] != ShortDays[b][0] || ShortDays[a][1] != ShortDays[b][1];
    }
    IndexOfDistinct(ShortDays, i);
  }

  /** Each key of `dayMap` leads to its own day. */
  lemma DayKeyIndexOfKeys(i: int)
    requires 0 <= i < 7
    ensures DayKeyIndex(ShortKeys[i]) == i
    ensures DayKeyIndex(LongKeys[i]) == i
  {
    KeysDistinct();
    IndexOfDistinct(ShortKeys, i);
    IndexOfDistinct(LongKeys, i);
    assert LongKeys[i] !in ShortKeys;
  }

  /** Every short and every long name is accepted, whatever its case. */
  lemma {:induction false} NormalizeAcceptsDayNames(i: int, s: string)
    requires 0 <= i < 7
    requires Lower(s) == Lower(ShortDays[i]) || Lower(s) == Lower(LongDays[i])
    ensures NormalizeDayName(Str(s)) == Some(ShortDays[i])
  {
    var key := Lower(s);
    assert key == ShortKeys[i] || key == LongKeys[i] by {
      LoweredNames();
      assert Lowered(ShortDays)[i] == Lower(ShortDays[i]);
      assert Lowered(LongDays)[i] == Lower(LongDays[i]);
    }
    DayKeyIndexOfKeys(i);
    assert DayKeyIndex(key) == i;
    assert |s| > 0 by {
      KeyLengths();
    }
  }

  /** `s` is, in any case, the short or the long name of week day `k`. */
  predicate NamesDay(s: string, k: int)
    requires 0 <= k < 7
  {
    Lower(s) == ShortKeys[k] || Lower(s) == LongKeys[k]
  }

  /** Which short name a string normalises to: that of day `k` exactly
      when the string names day `k`. */
  lemma {:induction false} NormalizeNamesDay(s: string, k: int)
    requires 0 <= k < 7
    ensures NormalizeDayName(Str(s)) == Some(ShortDays[k]) <==> NamesDay(s, k)
  {
    var i := DayKeyIndex(Lower(s));
    if NormalizeDayName(Str(s)) == Some(ShortDays[k]) {
      assert ShortDays[i] == ShortDays[k];
      ShortDayIndex(i);
      ShortDayIndex(k);
    }
    if NamesDay(s, k) {
      DayKeyIndexOfKeys(k);
      assert |s| > 0 by {
        KeyLengths();
      }
    }
  }

  lemma {:induction false} NormalizeIdempotent(v: Val)
    requires NormalizeDayName(v).Some?
    ensures NormalizeDayName(Str(NormalizeDayName(v).value)) == NormalizeDayName(v)
  {
    var d := NormalizeDayName(v).value;
    var i := DayKeyIndex(Lower(v.s));
    assert d == ShortDays[i];
    NormalizeAcceptsDayNames(i, d);
  }

  /** `getDayIndex` of the two current builds: the case-insensitive
      position among the short names, then among the long names, else -1. */
  function GetDayIndex(dayName: string): (r: int)
    ensures -1 <= r < 7
  {
    var lowerDay := Lower(dayName);
    var shortIndex := IndexOf(Lowered(ShortDays), lowerDay);
    var longIndex := IndexOf(Lowered(LongDays), lowerDay);
    if shortIndex != -1 then shortIndex
    else if longIndex != -1 then longIndex
    else -1
  }

  /** `getDayIndex` fails exactly where `normalizeDayName` does, and
      otherwise points at the short name `normalizeDayName` returns. */
  lemma {:induction false} DayIndexMatchesNormalize(x: string)
    ensures GetDayIndex(x) == -1 <==> NormalizeDayName(Str(x)) == None
    ensures GetDayIndex(x) != -1 ==> NormalizeDayName(Str(x)) == Some(ShortDays[GetDayIndex(x)])
  {
    LoweredNames();
    assert x == "" ==> Lower(x) == "";
  }

  /** The position of an exact-case short name, else of an exact-case long
      name, else -1 (`shortDays.indexOf` then `longDays.indexOf`). */
  function ExactStartIndex(first: Val): (r: int)
    ensures -1 <= r < 7
    ensures r == -1 <==> !(first.Str? && (first.s in ShortDays || first.s in LongDays))
    ensures r >= 0 ==> first.s == ShortDays[r] || first.s == LongDays[r]
  {
    if !first.Str? then -1
    else
      var i := IndexOf(ShortDays, first.s);
      if i != -1 then i else IndexOf(LongDays, first.s)
  }

  /** `getOrderedDayIndexes`: the seven day numbers in display order, starting
      with the configured first day; `null` unless `firstDayOfWeek` is an
      exact-case short or long name. */
  function OrderedDayIndexes(firstDayOfWeek: Val): (r: Option<seq<int>>)
    ensures r.None? <==>
              !(firstDayOfWeek.Str? && (firstDayOfWeek.s in ShortDays || firstDayOfWeek.s in LongDays))
    ensures r.Some? ==> r.value == Rotation(ExactStartIndex(firstDayOfWeek))
  {
    var startIndex := ExactStartIndex(firstDayOfWeek);
    if startIndex == -1 then None
    else Some(Rotation(startIndex))
  }

  /** `[...Array(7).keys()].map((i) => (start + i) % 7)` */
  function Rotation(start: int): (r: seq<int>)
    requires 0 <= start < 7
    ensures |r| == 7
    ensures forall i :: 0 <= i < 7 ==> r[i] == (start + i) % 7 && 0 <= r[i] < 7
  {
    seq(7, i requires 0 <= i < 7 => if start + i < 7 then start + i else start + i - 7)
  }

  /** `k % 7` for `0 <= k < 14`. */
  function Wrap(k: int): (r: int)
    requires 0 <= k < 14
    ensures r == k % 7 && 0 <= r < 7
  {
    if k < 7 then k else k - 7
  }

  /** A rotation starts at its start, lists every day exactly once, and
      steps from each day to the next. */
  lemma RotationIsPermutation(start: int)
    requires 0 <= start < 7
    ensures var r := Rotation(start);
      && r[0] == start
      && (forall d :: 0 <= d < 7 ==> d in r)
      && (forall i, j :: 0 <= i < j < 7 ==> r[i] != r[j])
      && (forall i :: 0 <= i < 6 ==> r[i + 1] == (r[i] + 1) % 7)
  {
    var r := Rotation(start);
    assert forall i :: 0 <= i < 7 ==> r[i] == Wrap(start + i);
    forall d | 0 <= d < 7 ensures d in r {
      var i := if d >= start then d - start else d - start + 7;
      assert r[i] == Wrap(start + i) == d;
    }
    forall i, j | 0 <= i < j < 7 ensures r[i] != r[j] {
      assert r[i] == Wrap(start + i) && r[j] == Wrap(start + j);
    }
    forall i | 0 <= i < 6 ensures r[i + 1] == (r[i] + 1) % 7 {
      assert r[i + 1] == Wrap(start + i + 1) && r[i] == Wrap(start + i);
      assert (r[i] + 1) % 7 == Wrap(r[i] + 1);
    }
  }

  /** `xs.slice(start)` followed by `xs.slice(0, start)` lists a week's
      entries in the order of the rotation from `start`. */
  lemma {:induction false} SliceRotation<T>(xs: seq<T>, start: int)
    requires |xs| == 7 && 0 <= start < 7
    ensures forall i :: 0 <= i < 7 ==> (xs[start..] + xs[..start])[i] == xs[Rotation(start)[i]]
  {
    var h := xs[start..] + xs[..start];
    var r := Rotation(start);
    forall i | 0 <= i < 7 ensures h[i] == xs[r[i]] {
      if i < 7 - start {
        assert h[i] == xs[start + i];
      } else {
        assert h[i] == xs[i - (7 - start)];
      }
    }
  }

  // ---------------------------------------------------------------------
  // The older www variant

  /** `normalizeDayName` of the www variant: the short name of a
      case-insensitive short or long name; it throws for anything else,
      including a non-string, whose `toLowerCase` is missing. */
  function NormalizeDayNameStrict(dayName: Val): Outcome<string> {
    if !dayName.Str? then Thrown
    else
      var normalizedDay := Lower(dayName.s);
      var shortIndex := IndexOf(Lowered(ShortDays), normalizedDay);
      var longIndex := IndexOf(Lowered(LongDays), normalizedDay);
      if shortIndex != -1 then Ok(ShortDays[shortIndex])
      else if longIndex != -1 then Ok(ShortDays[longIndex])
      else Thrown
  }

  /** The www variant accepts exactly what the current builds accept, with
      the same result, and throws where they return `undefined`. */
  lemma {:induction false} StrictAgreesWithLenient(v: Val)
    ensures NormalizeDayNameStrict(v).Ok? <==> NormalizeDayName(v).Some?
    ensures NormalizeDayNameStrict(v).Ok? ==>
              NormalizeDayNameStrict(v).value == NormalizeDayName(v).value
  {
    LoweredNames();
    if v.Str? && v.s == "" {
      assert Lower(v.s) == "";
    }
  }

  /** The fallback first day "Monday" is accepted by every build as "Mon". */
  lemma MondayIsMon()
    ensures NormalizeDayName(Str("Monday")) == Some("Mon")
    ensures NormalizeDayNameStrict(Str("Monday")) == Ok("Mon")
  {
    assert LongDays[1] == "Monday";
    NormalizeAcceptsDayNames(1, "Monday");
    StrictAgreesWithLenient(Str("Monday"));
  }

  /** `getDayIndex` of the www variant: exact-case position among the short names. */
  function GetDayIndexExact(day: Val): (r: int)
    ensures -1 <= r < 7
    ensures r >= 0 ==> day == Str(ShortDays[r])
    ensures r == -1 <==> !(day.Str? && day.s in ShortDays)
  {
    if day.Str? then IndexOf(ShortDays, day.s) else -1
  }

  /** What the www variant accepts as a first day always has a day number. */
  lemma {:induction false} StrictResultHasIndex(v: Val)
    requires NormalizeDayNameStrict(v).Ok?
    ensures 0 <= GetDayIndexExact(Str(NormalizeDayNameStrict(v).value)) < 7
  {
    StrictAgreesWithLenient(v);
  }

  /** The header order of the www variant's `renderWeekDays`:
      `daysOfWeek.slice(start)` followed by `daysOfWeek.slice(0, start)`;
      `None` where it renders the "Invalid Week Start" header. */
  function HeaderOrder(firstDayOfWeek: Val, showLongDayNames: bool): (r: Option<seq<string>>)
    ensures r.None? <==> GetDayIndexExact(firstDayOfWeek) == -1
    ensures r.Some? ==> |r.value| == 7
  {
    var daysOfWeek := if showLongDayNames then LongDays else ShortDays;
    var startIndex := GetDayIndexExact(firstDayOfWeek);
    if startIndex == -1 then None
    else Some(daysOfWeek[startIndex..] + daysOfWeek[..startIndex])
  }

  /** The www header shows, column by column, the days the current builds'
      `getOrderedDayIndexes` lists for the same exact short first day. */
  lemma {:induction false} HeaderOrderMatchesOrderedIndexes(firstDayOfWeek: Val, showLongDayNames: bool)
    requires HeaderOrder(firstDayOfWeek, showLongDayNames).Some?
    ensures OrderedDayIndexes(firstDayOfWeek).Some?
    ensures var h := HeaderOrder(firstDayOfWeek, showLongDayNames).value;
            var o := OrderedDayIndexes(firstDayOfWeek).value;
            var daysOfWeek := if showLongDayNames then LongDays else ShortDays;
            forall i :: 0 <= i < 7 ==> h[i] == daysOfWeek[o[i]]
  {
    var s := GetDayIndexExact(firstDayOfWeek);
    assert ExactStartIndex(firstDayOfWeek) == s;
    SliceRotation(if showLongDayNames then LongDays else ShortDays, s);
  }
}
