/**
  NullDataField: the stand-in handed back when a query names a data field the
  record does not have. It keeps the record it was looked up on and the tag
  that was asked for; every other read answers a fixed default, and every
  write is ignored.
 */
module NullFields {
  import opened Wrappers
  import opened Marc4j

  class NullDataField {
    const record: Record?
    const tag: string

    /** Both values are kept exactly as given and can never change afterwards. */
    constructor (record: Record?, tag: string)
      ensures this.record == record && this.tag == tag
    {
      this.record := record;
      this.tag := tag;
    }

    /** Truth value in a boolean context: a missing field is never "present". */
    function AsBoolean(): (b: bool)
      ensures !b
    {
      false
    }

    method SetId(id: Option<int>)
      ensures GetId() == None
    {
    }

    function GetId(): (id: Option<int>)
      ensures id == None
    {
      None
    }

    /** The tag that was asked for, so that the missing field can be created under it. */
    function GetTag(): (t: string)
      ensures t == tag
    {
      tag
    }

    /** The tag is fixed at construction; setting it has no effect. */
    method SetTag(t: string)
      ensures GetTag() == tag
    {
    }

    function Find(pattern: string): (found: bool)
      ensures !found
    {
      false
    }

    /** Every field compares as equal to this one. */
    function CompareTo(other: object?): (order: int)
      ensures order == 0
    {
      0
    }

    function GetIndicator1(): (ind: char)
      ensures ind == '\0'
    {
      '\0'
    }

    method SetIndicator1(ind: char)
      ensures GetIndicator1() == '\0'
    {
    }

    function GetIndicator2(): (ind: char)
      ensures ind == '\0'
    {
      '\0'
    }

    method SetIndicator2(ind: char)
      ensures GetIndicator2() == '\0'
    {
    }

    function GetSubfields(): (subfields: seq<Subfield>)
      ensures subfields == []
    {
      []
    }

    function GetSubfieldsWithCode(code: char): (subfields: seq<Subfield>)
      ensures subfields == []
    {
      []
    }

    function CountSubfields(): (n: int)
      ensures n == 0
    {
      0
    }

    function GetSubfield(code: char): (subfield: Subfield?)
      ensures subfield == null
    {
      null
    }

    method AddSubfield(subfield: Subfield)
      ensures GetSubfields() == []
    {
    }

    method AddSubfieldAt(index: int, subfield: Subfield)
      ensures GetSubfields() == []
    {
    }

    method RemoveSubfield(subfield: Subfield)
      ensures GetSubfields() == []
    {
    }

    /** The record the failed lookup ran against, for creating the real field there. */
    function GetRecord(): (r: Record?)
      ensures r == record
    {
      record
    }
  }

  /** The placeholder answers every subfield read the way a data field with no
      subfields would: the per-code list is the code filter of the full list,
      the count is the list's length, and the single-subfield lookup finds
      nothing exactly when the filtered list is empty. */
  lemma ReadsAgreeWithEmptyField(n: NullDataField, code: char)
    ensures n.GetSubfieldsWithCode(code) == WithCode(n.GetSubfields(), code)
    ensures n.CountSubfields() == |n.GetSubfields()|
    ensures n.GetSubfield(code) == null <==> WithCode(n.GetSubfields(), code) == []
  {
  }

  /** A placeholder for tag 600: it reports that tag and its record, no subfields
      and false, and keeps doing so after every kind of write. */
  method PlaceholderIgnoresWrites(record: Record?, subfield: Subfield)
    returns (tag: string, owner: Record?, present: bool, count: int,
             ind1: char, id: Option<int>)
    ensures tag == "600" && owner == record && !present && count == 0
    ensures ind1 == '\0' && id == None
  {
    var n := new NullDataField(record, "600");
    n.SetTag("245");
    n.SetIndicator1('1');
    n.SetId(Some(7));
    n.AddSubfield(subfield);
    n.AddSubfieldAt(0, subfield);
    tag := n.GetTag();
    owner := n.GetRecord();
    present := n.AsBoolean();
    count := n.CountSubfields();
    ind1 := n.GetIndicator1();
    id := n.GetId();
  }
}
