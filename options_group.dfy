/**
 * The options-group setting card: a card owns an ordered list of
 * option-group widgets, each holding one integer (an index chosen with a
 * row of buttons offering `range(lo, hi)`). Clicking a button that another
 * widget of the card already holds gives that other widget the clicker's
 * previous value: the "smart exchange".
 *
 * A widget's configuration item is modelled by its `value` field. Writing a
 * configuration item re-dispatches to the widget's `setValue`, so every write
 * below goes through `SetValue` and keeps the button states in step.
 */
module OptionsGroups {
  import opened Wrappers

  /** No two slots hold the same value. */
  ghost predicate Distinct(vals: seq<int>)
  {
    forall a, b :: 0 <= a < b < |vals| ==> vals[a] != vals[b]
  }

  /**
   * The first position at or after `from`, other than `src`, whose value
   * is `v`: the widget `_onOptionChanged` selects as the conflicting one.
   */
  function FirstConflictFrom(vals: seq<int>, src: int, v: int, from: nat): (r: Option<nat>)
    requires from <= |vals|
    ensures r.Some? ==> from <= r.value < |vals| && r.value != src && vals[r.value] == v
    ensures r.Some? ==> forall k :: from <= k < r.value && k != src ==> vals[k] != v
    ensures r.None? ==> forall k :: from <= k < |vals| && k != src ==> vals[k] != v
    decreases |vals| - from
  {
    if from == |vals| then None
    else if from != src && vals[from] == v then Some(from)
    else FirstConflictFrom(vals, src, v, from + 1)
  }

  function FirstConflict(vals: seq<int>, src: int, v: int): Option<nat>
  {
    FirstConflictFrom(vals, src, v, 0)
  }

  /**
   * What `_onOptionChanged(newValue, oldValue, source)` does to the values:
   * the first other slot holding `newValue`, if any, receives `oldValue`;
   * nothing else is written.
   */
  function Exchanged(vals: seq<int>, src: int, newValue: int, oldValue: int): (r: seq<int>)
  {
    match FirstConflict(vals, src, newValue)
    case None => vals
    case Some(j) => vals[j := oldValue]
  }

  /**
   * What a click on the button for `v` in slot `i` does: nothing when `v`
   * is already the slot's value, otherwise the slot takes `v` and the card
   * resolves the conflict with the slot's previous value.
   */
  function Clicked(vals: seq<int>, i: nat, v: int): (r: seq<int>)
    requires i < |vals|
  {
    if v == vals[i] then vals
    else Exchanged(vals[i := v], i, v, vals[i])
  }

  /** The scan for a conflict skips the source slot, whatever it holds. */
  lemma {:induction false} ConflictIgnoresSource(vals: seq<int>, src: nat, x: int, v: int, from: nat)
    requires src < |vals| && from <= |vals|
    ensures FirstConflictFrom(vals[src := x], src, v, from) == FirstConflictFrom(vals, src, v, from)
    decreases |vals| - from
  {
    if from < |vals| {
      ConflictIgnoresSource(vals, src, x, v, from + 1);
    }
  }

  /**
   * A click with a conflict is a transposition: the clicked slot and the
   * first other slot holding the clicked value trade values, every other
   * slot keeps its value, and the multiset of values is unchanged. Without
   * a conflict only the clicked slot changes.
   */
  lemma ClickIsTransposition(vals: seq<int>, i: nat, v: int)
    requires i < |vals| && v != vals[i]
    ensures var r := Clicked(vals, i, v);
            |r| == |vals| && r[i] == v
            && match FirstConflict(vals, i, v)
               case Some(j) =>
                 r == vals[i := vals[j]][j := vals[i]] && multiset(r) == multiset(vals)
               case None =>
                 r == vals[i := v] && forall k :: 0 <= k < |vals| && k != i ==> vals[k] != v
  {
    ConflictIgnoresSource(vals, i, v, v, 0);
    match FirstConflict(vals, i, v)
    case Some(j) =>
      var r := vals[i := vals[j]][j := vals[i]];
      calc {
        multiset(r);
        multiset(vals[i := vals[j]]) - multiset{vals[j]} + multiset{vals[i]};
        multiset(vals) - multiset{vals[i]} + multiset{vals[j]} - multiset{vals[j]} + multiset{vals[i]};
        multiset(vals);
      }
    case None =>
  }

  /** A click never lets two slots end up with the same value if none did before. */
  lemma ClickPreservesDistinct(vals: seq<int>, i: nat, v: int)
    requires i < |vals| && Distinct(vals)
    ensures Distinct(Clicked(vals, i, v))
  {
    if v != vals[i] {
      ClickIsTransposition(vals, i, v);
      var r := Clicked(vals, i, v);
      forall a, b | 0 <= a < b < |r|
        ensures r[a] != r[b]
      {
        match FirstConflict(vals, i, v)
        case Some(j) =>
        case None =>
          if a == i { assert vals[b] != v; }
          else if b == i { assert vals[a] != v; }
      }
    }
  }

  /** The source of an exchange is never taken for the conflicting slot. */
  lemma ExchangeSparesSource(vals: seq<int>, src: nat, newValue: int, oldValue: int)
    requires src < |vals|
    ensures Exchanged(vals, src, newValue, oldValue)[src] == vals[src]
    ensures forall k :: 0 <= k < |vals| && k != src && vals[k] != newValue
              ==> Exchanged(vals, src, newValue, oldValue)[k] == vals[k]
  {
  }

  /**
   * The exchange with three widgets holding 0, 1 and 2: the first taking 1
   * swaps with the second; the first taking the free value 3 moves alone.
   */
  lemma ClickExamples()
    ensures Clicked([0, 1, 2], 0, 1) == [1, 0, 2]
    ensures Clicked([0, 1, 2], 0, 3) == [3, 1, 2]
    ensures Exchanged([1, 1, 2], 0, 1, 0) == [1, 0, 2]
  {
    assert FirstConflict([1, 1, 2], 0, 1) == Some(1);
    assert FirstConflict([3, 1, 2], 0, 3) == None;
  }

  /** One option-group widget: its button options, their check states and its value. */
  class OptionsGroupWidget {
    var options: seq<int>
    var checked: seq<bool>
    var value: int

    /** Exactly the buttons whose option equals the value are checked. */
    ghost predicate Valid()
      reads this
    {
      |checked| == |options| && forall k :: 0 <= k < |options| ==> checked[k] == (options[k] == value)
    }

    /** One button per option of `range(lo, hi)`, then `setValue(stored)`. */
    constructor (lo: int, hi: int, stored: int)
      ensures Valid() && value == stored
      ensures |options| == (if lo < hi then hi - lo else 0)
      ensures forall k :: 0 <= k < |options| ==> options[k] == lo + k
    {
      var buttons := [];
      var option := lo;
      while option < hi
        invariant lo <= hi ==> lo <= option <= hi
        invariant lo > hi ==> option == lo
        invariant |buttons| == option - lo
        invariant forall k :: 0 <= k < |buttons| ==> buttons[k] == lo + k
      {
        buttons := buttons + [option];
        option := option + 1;
      }
      options := buttons;
      checked := seq(|buttons|, _ => false);
      value := stored;
      new;
      SetValue(stored);
    }

    /** `setValue`: stores the value and checks exactly the matching buttons. */
    method SetValue(v: int)
      requires |checked| == |options|
      modifies this`value, this`checked
      ensures Valid() && value == v
    {
      value := v;
      var k := 0;
      while k < |options|
        invariant 0 <= k <= |options| && |checked| == |options| && value == v
        invariant forall m :: 0 <= m < k ==> checked[m] == (options[m] == v)
      {
        checked := checked[k := options[k] == v];
        k := k + 1;
      }
    }

    /**
     * `_onButtonClicked` for button `k`: a click on the current value does
     * nothing and notifies nobody; otherwise the widget takes the option and
     * returns the (new, previous) pair its parent card is called with.
     */
    method OnButtonClicked(k: nat) returns (notice: Option<(int, int)>)
      requires Valid() && k < |options|
      modifies this`value, this`checked
      ensures Valid()
      ensures options[k] == old(value) ==> notice == None && value == old(value)
      ensures options[k] != old(value) ==> notice == Some((options[k], old(value))) && value == options[k]
    {
      var v := options[k];
      if v == value {
        return None;
      }
      var previous := value;
      SetValue(v);
      notice := Some((v, previous));
    }
  }

  class OptionsGroupSettingCard {
    var widgets: seq<OptionsGroupWidget>
    var occupied: set<int>

    ghost predicate Valid()
      reads this, widgets
    {
      (forall a, b :: 0 <= a < b < |widgets| ==> widgets[a] != widgets[b])
      && forall k :: 0 <= k < |widgets| ==> widgets[k].Valid()
    }

    /** The values of the widgets, in list order. */
    ghost function Values(): (r: seq<int>)
      reads this, widgets
      ensures |r| == |widgets| && forall k :: 0 <= k < |widgets| ==> r[k] == widgets[k].value
    {
      seq(|widgets|, k reads this, widgets requires 0 <= k < |widgets| => widgets[k].value)
    }

    /** The card records every initial widget value that is not negative. */
    constructor (ws: seq<OptionsGroupWidget>)
      requires forall a, b :: 0 <= a < b < |ws| ==> ws[a] != ws[b]
      requires forall k :: 0 <= k < |ws| ==> ws[k].Valid()
      ensures Valid() && widgets == ws
      ensures forall x :: x in occupied <==> exists k :: 0 <= k < |ws| && ws[k].value == x && x >= 0
    {
      widgets := ws;
      occupied := {};
      new;
      var n := 0;
      while n < |ws|
        invariant 0 <= n <= |ws| && widgets == ws && Valid()
        invariant forall x :: x in occupied <==> exists k :: 0 <= k < n && ws[k].value == x && x >= 0
      {
        var current := ws[n].value;
        if current >= 0 {
          occupied := occupied + {current};
        }
        n := n + 1;
      }
    }

    /**
     * `_onOptionChanged`: scans the widgets in order for the first one,
     * other than the source, that holds `newValue`, and writes `oldValue`
     * into it. The occupied set is left as it was.
     */
    method OnOptionChanged(newValue: int, oldValue: int, src: nat)
      requires Valid() && src < |widgets|
      modifies widgets
      ensures Valid() && widgets == old(widgets) && occupied == old(occupied)
      ensures Values() == Exchanged(old(Values()), src, newValue, oldValue)
      ensures forall m :: 0 <= m < |widgets| ==> widgets[m].options == old(widgets[m].options)
    {
      ghost var vals := Values();
      var source := widgets[src];
      var conflicted: Option<nat> := None;
      var j := 0;
      while j < |widgets|
        invariant 0 <= j <= |widgets|
        invariant conflicted == None ==> FirstConflict(vals, src, newValue) == FirstConflictFrom(vals, src, newValue, j)
        invariant conflicted.Some? ==> conflicted == FirstConflict(vals, src, newValue)
        decreases if conflicted.Some? then 0 else |widgets| - j + 1
      {
        if widgets[j] != source && widgets[j].value == newValue {
          conflicted := Some(j);
          break;
        }
        j := j + 1;
      }
      if conflicted.Some? {
        var c := conflicted.value;
        widgets[c].SetValue(oldValue);
        assert Values() == vals[c := oldValue];
      }
    }

    /**
     * A click on button `k` of widget `i` (whose parent is this card):
     * the widget's `_onButtonClicked` followed, when it changed, by
     * `_onOptionChanged` with the new and previous values.
     */
    method Click(i: nat, k: nat)
      requires Valid() && i < |widgets| && k < |widgets[i].options|
      modifies widgets
      ensures Valid() && widgets == old(widgets) && occupied == old(occupied)
      ensures Values() == Clicked(old(Values()), i, old(widgets[i].options[k]))
      ensures Distinct(old(Values())) ==> Distinct(Values())
      ensures forall m :: 0 <= m < |widgets| ==> widgets[m].options == old(widgets[m].options)
    {
      ghost var vals := Values();
      var notice := widgets[i].OnButtonClicked(k);
      assert forall m :: 0 <= m < |widgets| && m != i ==> widgets[m].Valid();
      if notice.Some? {
        assert Values() == vals[i := notice.value.0];
        OnOptionChanged(notice.value.0, notice.value.1, i);
      }
      if Distinct(vals) {
        ClickPreservesDistinct(vals, i, old(widgets[i].options[k]));
      }
    }
  }
}
