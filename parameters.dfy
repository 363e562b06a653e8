/**
 * `DelayParam` and `ReverbParam`, which are textually the same class: a named scalar
 * control with a constructor default and a stored value.
 */
module Parameters {

  class Param {
    /** `name_`. */
    const name: string
    /** `defaultValue_`, the value the parameter starts with. */
    const defaultValue: real
    /** `value_`; the source stores it atomically, here it is a plain field. */
    var value: real

    /** A new parameter holds its constructor default. */
    constructor (name: string, defaultValue: real)
      ensures this.name == name && this.defaultValue == defaultValue
      ensures value == defaultValue
    {
      this.name := name;
      this.defaultValue := defaultValue;
      value := defaultValue;
    }

    /** `getValue()`: the last value stored. */
    function GetValue(): (v: real)
      reads this
      ensures v == value
    {
      value
    }

    /** `setValue(v)`: a later `GetValue()` returns `v`; name and default are untouched. */
    method SetValue(v: real)
      modifies this
      ensures value == v && GetValue() == v
    {
      value := v;
    }

    /** `getDefaultValue()`: 0.5, whatever default the constructor received. */
    function GetDefaultValue(): (d: real)
      ensures d == 0.5
    {
      0.5
    }
  }

}
