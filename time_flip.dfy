/**
 * The time-flip setting card: two radio buttons choosing how time-flipped
 * data is processed (discard or reserve, the processing item) and a combo
 * box choosing the reserve strategy among the first two options of the
 * reserve item. Discarding writes "none" to the reserve item; reserving
 * again restores the strategy the user chose last.
 *
 * Both configuration items are modelled by their values. Each handler is
 * one atomic update: the change signals that a configuration write or a
 * widget update would re-dispatch to other handlers are not followed.
 * Combo box items are identified by their option; the option-to-text map
 * is a bijection between the two choices and their texts.
 */
module TimeFlip {
  import opened Wrappers

  /** The reserve value written when time-flipped data is discarded. */
  const NoReserve: string := "none"

  /** The two radio buttons. */
  datatype Radio = DiscardButton | ReserveButton

  /** The position of `v` among the choices. */
  function IndexOf(choices: seq<string>, v: string): (i: nat)
    requires v in choices
    ensures i < |choices| && choices[i] == v
    ensures forall k :: 0 <= k < i ==> choices[k] != v
  {
    if choices[0] == v then 0 else 1 + IndexOf(choices[1..], v)
  }

  /**
   * The combo box index selected at construction, as written: the stored
   * reserve value is looked up in the option-to-text map, and a value that
   * is not one of the choices is a lookup failure (`None`).
   */
  function InitialComboIndex(choices: seq<string>, stored: string): (r: Option<nat>)
    ensures r.Some? <==> stored in choices
    ensures r.Some? ==> r.value < |choices| && choices[r.value] == stored
  {
    if stored in choices then Some(IndexOf(choices, stored)) else None
  }

  /**
   * The combo box index selected at construction, corrected: a stored value
   * that is not one of the choices (the "none" that discarding writes)
   * leaves the combo box on its first item.
   */
  function RestoredComboIndex(choices: seq<string>, stored: string): (r: nat)
    requires |choices| > 0
    ensures r < |choices|
    ensures stored in choices ==> choices[r] == stored && InitialComboIndex(choices, stored) == Some(r)
    ensures stored !in choices ==> r == 0 && InitialComboIndex(choices, stored) == None
  {
    if stored in choices then IndexOf(choices, stored) else 0
  }

  class TimeFlipSettingCard {
    /** The processing item's two options. */
    var discardOption: string
    var reserveOption: string
    /** The first two options of the reserve item: the combo box's items. */
    var choices: seq<string>

    var procValue: string
    var reserveValue: string
    var lastReserveChoice: Option<string>

    var comboIndex: nat
    var comboEnabled: bool
    var discardChecked: bool
    var reserveChecked: bool

    /**
     * The combo box shows one of its two items, neither of which is "none"
     * (the reserve item lists "none" after the two strategies), the two
     * radio buttons are never both checked, and the remembered choice is
     * one of the combo box's items.
     */
    ghost predicate Valid()
      reads this
    {
      |choices| == 2 && choices[0] != choices[1] && NoReserve !in choices && comboIndex < 2
      && !(discardChecked && reserveChecked)
      && (lastReserveChoice.Some? ==> lastReserveChoice.value in choices)
    }

    /**
     * Construction over stored values: the combo box shows the stored
     * reserve strategy, a stored strategy other than "none" is remembered,
     * and the stored processing value is applied with `setProcValue`. The
     * stored processing value must be one of the two options, or no radio
     * button is checked when the caption is taken from the checked one.
     */
    constructor (discard: string, reserve: string, strategies: seq<string>,
                 storedProc: string, storedReserve: string)
      requires |strategies| == 2 && strategies[0] != strategies[1] && NoReserve !in strategies
      requires storedProc == discard || storedProc == reserve
      ensures Valid() && lastReserveChoice != Some(NoReserve)
      ensures discardOption == discard && reserveOption == reserve && choices == strategies
      ensures procValue == storedProc
      ensures discardChecked <==> storedProc == discard
      ensures reserveChecked <==> storedProc != discard
      ensures comboEnabled <==> storedProc != discard
      ensures storedProc == discard ==> reserveValue == NoReserve
      ensures storedProc != discard && storedReserve in strategies && storedReserve != NoReserve ==>
                reserveValue == storedReserve && lastReserveChoice == Some(storedReserve)
      ensures storedReserve !in strategies ==> comboIndex == 0
      ensures storedProc == discard && storedReserve !in strategies ==> lastReserveChoice == None
      ensures storedReserve in strategies ==>
                lastReserveChoice == Some(storedReserve) && choices[comboIndex] == storedReserve
      ensures storedProc != discard && storedReserve !in strategies ==>
                reserveValue == strategies[0] && lastReserveChoice == Some(strategies[0])
    {
      discardOption, reserveOption, choices := discard, reserve, strategies;
      procValue, reserveValue := storedProc, storedReserve;
      comboIndex := RestoredComboIndex(strategies, storedReserve);
      comboEnabled := true;
      discardChecked, reserveChecked := false, false;
      lastReserveChoice := None;
      if storedReserve != NoReserve && storedReserve in strategies {
        lastReserveChoice := Some(storedReserve);
      }
      new;
      SetProcValue(storedProc);
    }

    /**
     * `setProcValue`: the processing item takes `value`. Discard checks its
     * button, disables the combo box and writes "none" to the reserve item.
     * Reserve checks its button, enables the combo box and restores the
     * remembered strategy, or, when there is none yet, takes the combo box's
     * current item and remembers it. Any other value changes nothing else.
     */
    method SetProcValue(value: string)
      requires Valid()
      modifies this`procValue, this`reserveValue, this`lastReserveChoice, this`comboIndex,
               this`comboEnabled, this`discardChecked, this`reserveChecked
      ensures Valid() && procValue == value && lastReserveChoice != Some(NoReserve)
      ensures value == discardOption ==>
                discardChecked && !reserveChecked && !comboEnabled && reserveValue == NoReserve
                && comboIndex == old(comboIndex) && lastReserveChoice == old(lastReserveChoice)
      ensures value != discardOption && value == reserveOption ==>
                reserveChecked && !discardChecked && comboEnabled
                && lastReserveChoice.Some? && reserveValue == lastReserveChoice.value
                && choices[comboIndex] == reserveValue
                && (old(lastReserveChoice).Some? ==> lastReserveChoice == old(lastReserveChoice))
                && (old(lastReserveChoice).None? ==> comboIndex == old(comboIndex))
      ensures value != discardOption && value != reserveOption ==>
                reserveValue == old(reserveValue) && lastReserveChoice == old(lastReserveChoice)
                && comboIndex == old(comboIndex) && comboEnabled == old(comboEnabled)
                && discardChecked == old(discardChecked) && reserveChecked == old(reserveChecked)
    {
      procValue := value;
      if value == discardOption {
        discardChecked, reserveChecked := true, false;
        comboEnabled := false;
        reserveValue := NoReserve;
      } else if value == reserveOption {
        discardChecked, reserveChecked := false, true;
        comboEnabled := true;
        if lastReserveChoice.Some? {
          var restore := lastReserveChoice.value;
          reserveValue := restore;
          comboIndex := IndexOf(choices, restore);
        } else {
          var current := choices[comboIndex];
          reserveValue := current;
          lastReserveChoice := Some(current);
        }
      }
    }

    /**
     * `_onCurrentIndexChanged`: the combo box now shows item `index`; its
     * option becomes the reserve value and the remembered strategy.
     */
    method OnCurrentIndexChanged(index: nat)
      requires Valid() && index < 2
      modifies this`comboIndex, this`reserveValue, this`lastReserveChoice
      ensures Valid() && comboIndex == index && lastReserveChoice != Some(NoReserve)
      ensures reserveValue == choices[index] && lastReserveChoice == Some(choices[index])
    {
      comboIndex := index;
      var selected := choices[index];
      reserveValue := selected;
      lastReserveChoice := Some(selected);
    }

    /**
     * `setReserveValue`: a value that is not one of the combo box's options,
     * "none" included, is ignored; otherwise the combo box shows it and the
     * reserve item takes it.
     */
    method SetReserveValue(value: string)
      requires Valid()
      modifies this`comboIndex, this`reserveValue
      ensures Valid()
      ensures value !in choices ==> comboIndex == old(comboIndex) && reserveValue == old(reserveValue)
      ensures value in choices ==> choices[comboIndex] == value && reserveValue == value
    {
      if value !in choices {
        return;
      }
      comboIndex := IndexOf(choices, value);
      reserveValue := value;
    }

    /**
     * `_onRadioButtonToggled`: an un-check is ignored; a check of a button
     * (which unchecks the other one) writes that button's option to the
     * processing item.
     */
    method OnRadioButtonToggled(button: Radio, isChecked: bool)
      requires Valid()
      modifies this`procValue, this`discardChecked, this`reserveChecked
      ensures Valid()
      ensures !isChecked ==> procValue == old(procValue) && discardChecked == old(discardChecked)
                             && reserveChecked == old(reserveChecked)
      ensures isChecked && button == DiscardButton ==> procValue == discardOption && discardChecked && !reserveChecked
      ensures isChecked && button == ReserveButton ==> procValue == reserveOption && reserveChecked && !discardChecked
    {
      if !isChecked {
        return;
      }
      if button == DiscardButton {
        discardChecked, reserveChecked := true, false;
        procValue := discardOption;
      } else {
        discardChecked, reserveChecked := false, true;
        procValue := reserveOption;
      }
    }
  }

  /**
   * Discarding and then reserving again gives back the strategy the user
   * chose last.
   */
  method DiscardThenReserve(card: TimeFlipSettingCard, chosen: string)
    requires card.Valid() && card.lastReserveChoice == Some(chosen)
    requires card.discardOption != card.reserveOption
    modifies card
    ensures card.Valid() && card.reserveValue == chosen && card.procValue == card.reserveOption
    ensures card.choices[card.comboIndex] == chosen && card.comboEnabled
    ensures card.reserveValue != NoReserve
  {
    card.SetProcValue(card.discardOption);
    card.SetProcValue(card.reserveOption);
  }

  /**
   * A card built over a discard with a stored strategy (the defaults:
   * discard, "overlapping") remembers that strategy, so switching to
   * reserve restores it rather than "none" or the first item.
   */
  method ReserveAfterStoredDiscard(discard: string, reserve: string, strategies: seq<string>,
                                   storedReserve: string)
    returns (before: string, after: string)
    requires |strategies| == 2 && strategies[0] != strategies[1] && NoReserve !in strategies
    requires discard != reserve && storedReserve in strategies
    ensures before == NoReserve && after == storedReserve
  {
    var card := new TimeFlipSettingCard(discard, reserve, strategies, discard, storedReserve);
    before := card.reserveValue;
    card.SetProcValue(reserve);
    after := card.reserveValue;
  }

  /**
   * As written, the card cannot be built over the values it stores itself:
   * once the processing item is set to discard, the reserve item holds
   * "none", and the construction-time lookup of the stored strategy fails
   * for "none".
   */
  method ReopenAfterDiscard(discard: string, reserve: string, strategies: seq<string>,
                            storedReserve: string)
    returns (written: string, lookup: Option<nat>)
    requires |strategies| == 2 && strategies[0] != strategies[1] && NoReserve !in strategies
    ensures written == NoReserve && lookup == None
  {
    var card := new TimeFlipSettingCard(discard, reserve, strategies, discard, storedReserve);
    card.SetProcValue(discard);
    written := card.reserveValue;
    lookup := InitialComboIndex(strategies, written);
  }

  /**
   * With the corrected construction the same stored values are accepted:
   * the combo box stays on its first item, nothing is remembered, and a
   * later switch to reserve takes that first item.
   */
  method ReopenAfterDiscardCorrected(discard: string, reserve: string, strategies: seq<string>)
    returns (reserveAfter: string, remembered: Option<string>)
    requires |strategies| == 2 && strategies[0] != strategies[1] && NoReserve !in strategies
    requires discard != reserve
    ensures reserveAfter == strategies[0] && remembered == Some(strategies[0])
  {
    var card := new TimeFlipSettingCard(discard, reserve, strategies, discard, NoReserve);
    card.SetProcValue(reserve);
    reserveAfter := card.reserveValue;
    remembered := card.lastReserveChoice;
  }
}
