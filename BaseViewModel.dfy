/**
 * The notification base shared by the view models: a raw "announce this property" primitive and
 * `SetProperty`, which assigns a backing field only when the new value differs and then announces it.
 */
module BaseViewModels {

  /**
   * `notifications` is the sequence of property names announced through `PropertyChanged` since the
   * object was constructed, oldest first; delivering them to subscribers is not modelled.
   */
  class BaseViewModel {
    var notifications: seq<string>

    constructor ()
      ensures notifications == []
    {
      notifications := [];
    }

    /** `OnPropertyChanged`: announces `propertyName` unconditionally. */
    method OnPropertyChanged(propertyName: string)
      modifies this
      ensures notifications == old(notifications) + [propertyName]
    {
      notifications := notifications + [propertyName];
    }

    /**
     * `SetProperty(ref field, value, propertyName)`. The by-reference field comes in as `field` and
     * its content after the call goes out as `stored`; equality is `object.Equals`, which is value
     * equality for strings and enumerations and identity for objects, as Dafny's `==` is.
     */
    method SetProperty<T(==)>(field: T, value: T, propertyName: string) returns (stored: T, changed: bool)
      modifies this
      ensures stored == value
      ensures changed <==> field != value
      ensures changed <==> |notifications| == |old(notifications)| + 1
      ensures notifications == if changed then old(notifications) + [propertyName] else old(notifications)
    {
      if field == value {
        return field, false;
      }
      stored := value;
      OnPropertyChanged(propertyName);
      changed := true;
    }
  }

  /** Setting the same value a second time reports no change and announces nothing more. */
  method SetPropertyTwice<T(==)>(b: BaseViewModel, field: T, value: T, propertyName: string)
    returns (stored: T, second: bool)
    modifies b
    ensures stored == value && !second
    ensures b.notifications ==
      if field == value then old(b.notifications) else old(b.notifications) + [propertyName]
  {
    var first;
    stored, first := b.SetProperty(field, value, propertyName);
    stored, second := b.SetProperty(stored, value, propertyName);
  }
}
