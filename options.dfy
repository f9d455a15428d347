/** `checkAndUpdateOptions`: the seven display options of the YAML
    configuration merged into a loaded state. Each option resolves to the
    configured value, else the stored one; the first day of the week is
    normalised and the four colours are validated. A resolved value that is
    defined and differs from the stored one overwrites it and marks the
    state as changed; any defined resolved value also becomes the card's. */
module Options {
  import opened Js
  import opened Model
  import Days

  /** A `normalizeDayName` result as an option value. */
  function DayVal(day: Option<string>): (r: Val)
    ensures r == Undefined <==> day.None?
  {
    if day.Some? then Str(day.value) else Undefined
  }

  /** The default an invalid colour option falls back to; none for the
      three options that are not colours. */
  function Fallback(key: OptionKey): Option<string> {
    match key
    case DayHeaderBackgroundColor => Some("blue")
    case DayHeaderFontColor => Some("white")
    case CurrentDayBackgroundColor => Some("red")
    case CurrentDayFontColor => Some("white")
    case _ => None
  }

  /** `yamlValue` of one option: the configured value unless it is
      `undefined`, else the stored one, then normalised or validated. */
  function Resolved(key: OptionKey, configured: Val, stored: Val, valid: string -> bool): Val {
    var value := if configured != Undefined then configured else stored;
    if key == FirstDayOfWeek then
      (if Truthy(value) then DayVal(Days.NormalizeDayName(value)) else Str("Mon"))
    else if Fallback(key).Some? && value != Undefined && !ValidColor(valid, value) then
      Str(Fallback(key).value)
    else value
  }

  /** `savedValue` of one option: the stored value, normalised for the
      first day of the week. */
  function Compared(key: OptionKey, stored: Val): Val {
    if key == FirstDayOfWeek then
      (if Truthy(stored) then DayVal(Days.NormalizeDayName(stored)) else Str("Mon"))
    else stored
  }

  /** The option is written to the state and marks it changed. */
  predicate Changes(key: OptionKey, configured: Val, stored: Val, valid: string -> bool) {
    var resolved := Resolved(key, configured, stored, valid);
    resolved != Undefined && resolved != Compared(key, stored)
  }

  /** What a resolved option can be: a short day name, `undefined` for an
      unrecognised day name, or "Mon" for an unset one; a colour that the
      browser accepts or the option's fallback; otherwise the value itself. */
  lemma ResolvedValues(key: OptionKey, configured: Val, stored: Val, valid: string -> bool)
    ensures var value := if configured != Undefined then configured else stored;
            var r := Resolved(key, configured, stored, valid);
      && (key == FirstDayOfWeek ==>
            (r == Undefined <==> Truthy(value) && Days.NormalizeDayName(value).None?)
            && (r != Undefined ==> r.Str? && r.s in Days.ShortDays))
      && (Fallback(key).Some? ==>
            r == (if value == Undefined || ValidColor(valid, value) then value else Str(Fallback(key).value)))
      && (key == ShowLongDayNames || key == PointsPosition ==> r == value)
  {
    assert "Mon" == Days.ShortDays[1];
  }

  /** The result of the pass: the stored options, the card's options and
      `optionsChanged`. */
  datatype OptionsResult = OptionsResult(stored: map<OptionKey, Val>, card: map<OptionKey, Val>, changed: bool)

  /** One turn of the loop, for one option. */
  function OptionStep(key: OptionKey, configured: map<OptionKey, Val>, r: OptionsResult,
                      valid: string -> bool): OptionsResult
  {
    var yamlValue := Resolved(key, Lookup(configured, key), Lookup(r.stored, key), valid);
    var changes := Changes(key, Lookup(configured, key), Lookup(r.stored, key), valid);
    OptionsResult(
      if changes then r.stored[key := yamlValue] else r.stored,
      if yamlValue != Undefined then r.card[key := yamlValue] else r.card,
      r.changed || changes)
  }

  /** The loop over `keys`, in order, from a state with `stored` options
      and a card with `card` options. */
  function OptionsPass(keys: seq<OptionKey>, configured: map<OptionKey, Val>, stored: map<OptionKey, Val>,
                       card: map<OptionKey, Val>, valid: string -> bool): OptionsResult
  {
    if |keys| == 0 then OptionsResult(stored, card, false)
    else OptionStep(keys[|keys| - 1], configured,
                    OptionsPass(keys[..|keys| - 1], configured, stored, card, valid), valid)
  }

  /** The pass over the first `i + 1` keys is one more turn after the pass
      over the first `i`. */
  lemma OptionsPassPrefix(keys: seq<OptionKey>, i: int, configured: map<OptionKey, Val>,
                          stored: map<OptionKey, Val>, card: map<OptionKey, Val>, valid: string -> bool)
    requires 0 <= i < |keys|
    ensures OptionsPass(keys[..i + 1], configured, stored, card, valid)
            == OptionStep(keys[i], configured, OptionsPass(keys[..i], configured, stored, card, valid), valid)
  {
    assert keys[..i + 1][..i] == keys[..i];
  }

  /** The pass option by option: a reconciled option holds its resolved
      value exactly when it changes, the card takes every defined resolved
      value, other options stay as they were, and the pass reports a change
      exactly when some option changes. */
  lemma OptionsPassEffect(keys: seq<OptionKey>, configured: map<OptionKey, Val>,
                          stored: map<OptionKey, Val>, card: map<OptionKey, Val>,
                          valid: string -> bool)
    requires forall i, j :: 0 <= i < j < |keys| ==> keys[i] != keys[j]
    ensures var r := OptionsPass(keys, configured, stored, card, valid);
      && (forall k :: k in keys ==>
            Lookup(r.stored, k) ==
              (if Changes(k, Lookup(configured, k), Lookup(stored, k), valid)
               then Resolved(k, Lookup(configured, k), Lookup(stored, k), valid)
               else Lookup(stored, k)))
      && (forall k :: k in keys ==>
            Lookup(r.card, k) ==
              (if Resolved(k, Lookup(configured, k), Lookup(stored, k), valid) != Undefined
               then Resolved(k, Lookup(configured, k), Lookup(stored, k), valid)
               else Lookup(card, k)))
      && (forall k :: k !in keys ==> Lookup(r.stored, k) == Lookup(stored, k) && Lookup(r.card, k) == Lookup(card, k))
      && (r.changed <==> exists k :: k in keys && Changes(k, Lookup(configured, k), Lookup(stored, k), valid))
  {
    OptionsPassStored(keys, configured, stored, card, valid);
    OptionsPassCard(keys, configured, stored, card, valid);
    OptionsPassChanged(keys, configured, stored, card, valid);
  }

  /** The stored options after the pass. */
  lemma {:induction false} OptionsPassStored(keys: seq<OptionKey>, configured: map<OptionKey, Val>,
                                             stored: map<OptionKey, Val>, card: map<OptionKey, Val>,
                                             valid: string -> bool)
    requires forall i, j :: 0 <= i < j < |keys| ==> keys[i] != keys[j]
    ensures var r := OptionsPass(keys, configured, stored, card, valid);
      && (forall k :: k in keys ==>
            Lookup(r.stored, k) ==
              (if Changes(k, Lookup(configured, k), Lookup(stored, k), valid)
               then Resolved(k, Lookup(configured, k), Lookup(stored, k), valid)
               else Lookup(stored, k)))
      && (forall k :: k !in keys ==> Lookup(r.stored, k) == Lookup(stored, k))
  {
    if |keys| > 0 {
      var init := keys[..|keys| - 1];
      var key := keys[|keys| - 1];
      OptionsPassStored(init, configured, stored, card, valid);
      assert key !in init;
      assert forall k :: k in keys <==> k in init || k == key;
      OptionStepEffect(key, configured, OptionsPass(init, configured, stored, card, valid), valid);
    }
  }

  /** The card's options after the pass. */
  lemma {:induction false} OptionsPassCard(keys: seq<OptionKey>, configured: map<OptionKey, Val>,
                                           stored: map<OptionKey, Val>, card: map<OptionKey, Val>,
                                           valid: string -> bool)
    requires forall i, j :: 0 <= i < j < |keys| ==> keys[i] != keys[j]
    ensures var r := OptionsPass(keys, configured, stored, card, valid);
      && (forall k :: k in keys ==>
            Lookup(r.card, k) ==
              (if Resolved(k, Lookup(configured, k), Lookup(stored, k), valid) != Undefined
               then Resolved(k, Lookup(configured, k), Lookup(stored, k), valid)
               else Lookup(card, k)))
      && (forall k :: k !in keys ==> Lookup(r.card, k) == Lookup(card, k))
  {
    if |keys| > 0 {
      var init := keys[..|keys| - 1];
      var key := keys[|keys| - 1];
      OptionsPassCard(init, configured, stored, card, valid);
      OptionsPassStored(init, configured, stored, card, valid);
      assert key !in init;
      assert forall k :: k in keys <==> k in init || k == key;
      OptionStepEffect(key, configured, OptionsPass(init, configured, stored, card, valid), valid);
    }
  }

  /** The pass reports a change exactly when some option changes. */
  lemma {:induction false} OptionsPassChanged(keys: seq<OptionKey>, configured: map<OptionKey, Val>,
                                              stored: map<OptionKey, Val>, card: map<OptionKey, Val>,
                                              valid: string -> bool)
    requires forall i, j :: 0 <= i < j < |keys| ==> keys[i] != keys[j]
    ensures OptionsPass(keys, configured, stored, card, valid).changed
            <==> exists k :: k in keys && Changes(k, Lookup(configured, k), Lookup(stored, k), valid)
  {
    if |keys| > 0 {
      var init := keys[..|keys| - 1];
      var key := keys[|keys| - 1];
      OptionsPassChanged(init, configured, stored, card, valid);
      OptionsPassStored(init, configured, stored, card, valid);
      assert key !in init;
      assert forall k :: k in keys <==> k in init || k == key;
      OptionStepEffect(key, configured, OptionsPass(init, configured, stored, card, valid), valid);
    }
  }

  /** One turn of the loop touches its own option only. */
  lemma OptionStepEffect(key: OptionKey, configured: map<OptionKey, Val>, p: OptionsResult,
                         valid: string -> bool)
    ensures var r := OptionStep(key, configured, p, valid);
            var resolved := Resolved(key, Lookup(configured, key), Lookup(p.stored, key), valid);
            var changes := Changes(key, Lookup(configured, key), Lookup(p.stored, key), valid);
      && Lookup(r.stored, key) == (if changes then resolved else Lookup(p.stored, key))
      && Lookup(r.card, key) == (if resolved != Undefined then resolved else Lookup(p.card, key))
      && (forall k :: k != key ==> Lookup(r.stored, k) == Lookup(p.stored, k) && Lookup(r.card, k) == Lookup(p.card, k))
      && (r.changed <==> p.changed || changes)
  {
  }

  /** The first day of the week, once resolved, resolves to itself. */
  lemma StoredDayStable(configured: Val, stored: Val, valid: string -> bool)
    requires Changes(FirstDayOfWeek, configured, stored, valid)
    ensures var r := Resolved(FirstDayOfWeek, configured, stored, valid);
            Compared(FirstDayOfWeek, r) == r
            && (configured == Undefined ==> Resolved(FirstDayOfWeek, configured, r, valid) == r)
  {
    var r := Resolved(FirstDayOfWeek, configured, stored, valid);
    var value := if configured != Undefined then configured else stored;
    if Truthy(value) {
      Days.NormalizeIdempotent(value);
    } else {
      Days.NormalizeAcceptsDayNames(1, "Mon");
    }
  }

  /** One option reconciled twice with the same configuration changes at
      most the first time. */
  lemma OptionSettles(key: OptionKey, configured: Val, stored: Val, valid: string -> bool)
    requires FallbacksValid(valid)
    ensures var after := if Changes(key, configured, stored, valid)
                         then Resolved(key, configured, stored, valid) else stored;
            !Changes(key, configured, after, valid)
  {
    if Changes(key, configured, stored, valid) && key == FirstDayOfWeek {
      StoredDayStable(configured, stored, valid);
    }
  }

  /** `checkAndUpdateOptions` run a second time with the same configuration
      on the state the first run left reports no change. */
  lemma {:induction false} SecondPassUnchanged(configured: map<OptionKey, Val>, stored: map<OptionKey, Val>,
                                               card: map<OptionKey, Val>, valid: string -> bool)
    requires FallbacksValid(valid)
    ensures var first := OptionsPass(OptionKeys, configured, stored, card, valid);
            !OptionsPass(OptionKeys, configured, first.stored, first.card, valid).changed
  {
    OptionKeysComplete();
    var first := OptionsPass(OptionKeys, configured, stored, card, valid);
    OptionsPassEffect(OptionKeys, configured, stored, card, valid);
    OptionsPassEffect(OptionKeys, configured, first.stored, first.card, valid);
    forall k | k in OptionKeys
      ensures !Changes(k, Lookup(configured, k), Lookup(first.stored, k), valid)
    {
      OptionSettles(k, Lookup(configured, k), Lookup(stored, k), valid);
    }
  }
}
