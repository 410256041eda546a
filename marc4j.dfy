/**
  Minimal stand-ins for the marc4j types the helper library works against.
  Only what the modelled code touches is represented: a record is an opaque
  reference, and a subfield is a mutable cell holding a code and its data.
 */
module Marc4j {

  /** A MARC record; the helpers only hold references to it. */
  class Record {
  }

  /** A subfield: a one-character code and a string of data, both settable. */
  class Subfield {
    var code: char
    var data: string

    constructor (code: char, data: string)
      ensures this.code == code && this.data == data
    {
      this.code := code;
      this.data := data;
    }

    function GetCode(): char
      reads this`code
    {
      code
    }

    function GetData(): string
      reads this`data
    {
      data
    }

    method SetData(data: string)
      modifies this`data
      ensures this.data == data
    {
      this.data := data;
    }
  }

  /** The subfields of `subfields` whose code is `c`:
      the read a data field answers for "all subfields with code c". */
  function WithCode(subfields: seq<Subfield>, c: char): (r: seq<Subfield>)
    reads set sf | sf in subfields
    decreases |subfields|
    ensures |r| <= |subfields|
    ensures forall sf | sf in r :: sf in subfields && sf.code == c
    ensures forall sf | sf in subfields && sf.code == c :: sf in r
  {
    if subfields == [] then []
    else if subfields[0].code == c then [subfields[0]] + WithCode(subfields[1..], c)
    else WithCode(subfields[1..], c)
  }
}
