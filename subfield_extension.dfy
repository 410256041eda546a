/**
  SubfieldExtension: the `<<` operator on a subfield, which appends text to the
  subfield's data and hands back the data as it now stands.
 */
module SubfieldExtensions {
  import opened Marc4j

  /** Appends `value` to the data of `subfield`; only the data is written. */
  method LeftShift(subfield: Subfield, value: string) returns (r: string)
    modifies subfield`data
    ensures subfield.data == old(subfield.data) + value
    ensures r == subfield.data
    ensures |r| == |old(subfield.data)| + |value|
    ensures subfield.code == old(subfield.code)
  {
    subfield.SetData(subfield.GetData() + value);
    r := subfield.GetData();
  }

  /** Two appends in a row accumulate in call order; appending "" changes nothing. */
  method LeftShiftInOrder(subfield: Subfield, first: string, second: string) returns (r: string)
    modifies subfield`data
    ensures r == old(subfield.data) + first + second
    ensures subfield.data == r && subfield.code == old(subfield.code)
  {
    var _ := LeftShift(subfield, first);
    var _ := LeftShift(subfield, second);
    r := LeftShift(subfield, "");
    assert old(subfield.data) + first + second + "" == old(subfield.data) + first + second;
  }

  /** On a fresh subfield, `sf << a << b` yields its data followed by a and b. */
  method AppendToNewSubfield(code: char, data: string, first: string, second: string)
    returns (r: string, finalCode: char)
    ensures r == data + first + second && finalCode == code
  {
    var sf := new Subfield(code, data);
    r := LeftShiftInOrder(sf, first, second);
    finalCode := sf.GetCode();
  }
}
