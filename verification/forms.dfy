/**
 * What the three forms share: the outcome of a submit, the submission gate
 * (`pushErrorsInArray`, the same code in each form), and the browser's
 * local storage as a string-to-string map.
 */
module Forms {

  datatype Option<T> = None | Some(value: T)

  /** What a submit handler leaves behind: no navigation, a navigation to a
      route, or a TypeError thrown out of the handler. */
  datatype Outcome = Stay | NavigateTo(path: string) | Fault

  /** Some error flag is set. */
  ghost predicate AnyFlagSet(flags: map<string, bool>) {
    exists k :: k in flags && flags[k]
  }

  /** `order` enumerates the keys of `flags` (a `for ... in` loop visits
      every own key of the object). */
  predicate Enumerates(order: seq<string>, flags: map<string, bool>) {
    && (forall i :: 0 <= i < |order| ==> order[i] in flags)
    && (forall k :: k in flags ==> k in order)
  }

  /** `pushErrorsInArray`: copy every flag into an array in key order, then
      `some(element => element === true)`. The form is blocked exactly when
      some flag is set. */
  method PushErrorsInArray(order: seq<string>, flags: map<string, bool>) returns (blocked: bool)
    requires Enumerates(order, flags)
    ensures blocked <==> AnyFlagSet(flags)
  {
    var arrayWithValues: seq<bool> := [];
    for i := 0 to |order|
      invariant |arrayWithValues| == i
      invariant forall j :: 0 <= j < i ==> arrayWithValues[j] == flags[order[j]]
    {
      arrayWithValues := arrayWithValues + [flags[order[i]]];
    }
    blocked := false;
    var i := 0;
    while i < |arrayWithValues| && !blocked
      invariant 0 <= i <= |arrayWithValues|
      invariant !blocked <==> forall j :: 0 <= j < i ==> !arrayWithValues[j]
    {
      blocked := arrayWithValues[i] == true;
      i := i + 1;
    }
    if blocked {
      var j :| 0 <= j < i && arrayWithValues[j];
      assert flags[order[j]];
    } else {
      forall k | k in flags ensures !flags[k] {
        var j :| 0 <= j < |order| && order[j] == k;
        assert !arrayWithValues[j];
      }
    }
  }

  /** `window.localStorage`: string keys to string values. */
  class LocalStorage {
    var items: map<string, string>

    constructor (initial: map<string, string>)
      ensures items == initial
    {
      items := initial;
    }

    /** `setItem(key, value)`: last writer wins. */
    method SetItem(key: string, value: string)
      modifies this
      ensures items == old(items)[key := value]
    {
      items := items[key := value];
    }

    /** `getItem(key)`: null (None) when the key was never written. */
    function GetItem(key: string): Option<string>
      reads this
    {
      if key in items then Some(items[key]) else None
    }
  }
}
