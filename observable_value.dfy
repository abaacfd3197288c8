/**
 * The compare-then-assign-then-notify setter shared by observable objects
 * (Libraries/Settings/ObservableValue.cs).
 *
 * C#'s `ref T field` becomes an in-out pair: the method receives the field's
 * current value and returns the value the field holds afterwards. The
 * PropertyChanged event is recorded in `raised`, the names carried by the
 * events raised so far, in order; the subscribers themselves are outside
 * the model.
 */
module Observable {

  /** What a SetProperty call leaves behind: the field's new value and whether it changed. */
  datatype Assignment<T> = Assignment(stored: T, changed: bool)

  /** The decision SetProperty takes, as a value: assign only when the comparer says the values differ. */
  function Assign<T>(field: T, value: T, equals: (T, T) -> bool): Assignment<T>
  {
    if equals(field, value) then Assignment(field, false) else Assignment(value, true)
  }

  /** EqualityComparer<T>.Default. */
  function DefaultEquals<T(==)>(a: T, b: T): bool
  {
    a == b
  }

  class ObservableValue {
    /** The PropertyName of every PropertyChanged event raised so far. */
    var raised: seq<string>

    constructor ()
      ensures raised == []
    {
      raised := [];
    }

    /** Raises PropertyChanged with the given property name. */
    method OnPropertyChanged(name: string)
      modifies this
      ensures raised == old(raised) + [name]
    {
      raised := raised + [name];
    }

    /** SetProperty with a caller-supplied comparer. */
    method SetPropertyWith<T>(field: T, value: T, equals: (T, T) -> bool, name: string)
      returns (stored: T, changed: bool)
      modifies this
      ensures Assignment(stored, changed) == Assign(field, value, equals)
      ensures changed == !equals(field, value)
      ensures !changed ==> stored == field
      ensures changed ==> stored == value
      ensures raised == old(raised) + (if changed then [name] else [])
    {
      if equals(field, value) {
        return field, false;
      }
      stored := value;
      OnPropertyChanged(name);
      changed := true;
    }

    /** SetProperty with the default equality. */
    method SetProperty<T(==)>(field: T, value: T, name: string) returns (stored: T, changed: bool)
      modifies this
      ensures Assignment(stored, changed) == Assign(field, value, DefaultEquals)
      ensures changed <==> field != value
      ensures stored == value
      ensures raised == old(raised) + (if changed then [name] else [])
    {
      stored, changed := SetPropertyWith(field, value, DefaultEquals, name);
    }
  }

  /** With the default comparer, SetProperty reports true exactly when the stored field changed. */
  lemma ChangedIffFieldChanged<T>(field: T, value: T)
    ensures Assign(field, value, DefaultEquals).changed <==> Assign(field, value, DefaultEquals).stored != field
  {
  }

  /**
   * Setting the same value twice: the second call changes nothing, so the
   * pair reports true (and notifies) at most once.
   */
  lemma AssignTwice<T>(field: T, value: T, equals: (T, T) -> bool)
    requires equals(value, value)
    ensures var first := Assign(field, value, equals);
      var second := Assign(first.stored, value, equals);
      !second.changed && second.stored == first.stored
  {
  }
}
