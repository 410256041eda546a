/**
  FieldInfo: the schema node for a MARC tag (or, one level down, for a
  subfield code), and the builder that assembles it.

  A node holds a tag, a description, a repeatable flag that starts out true,
  and a map from subfield code to a child node. Whether a tag is a control
  field, and which marc4j class it stands for, depend on the tag alone.
 */
module Schema {
  import opened Wrappers

  /** The three marc4j classes a tag can stand for. */
  datatype Marc4JClass = ControlFieldClass | DataFieldClass | SubfieldClass

  /** The MARC 21 control-field tags "001" to "009". */
  const ControlFieldTags: set<string> :=
    {"001", "002", "003", "004", "005", "006", "007", "008", "009"}

  /** A character matched by the regular-expression class `\d` (ASCII digits only). */
  predicate IsDigit(c: char) {
    '0' <= c <= '9'
  }

  /** The whole tag matches `\d\d\d`: exactly three ASCII digits. */
  predicate MatchesTagPattern(t: string) {
    |t| == 3 && IsDigit(t[0]) && IsDigit(t[1]) && IsDigit(t[2])
  }

  /** The "00X" range, stated by shape: two zeros and a non-zero digit. */
  predicate InControlRange(t: string) {
    |t| == 3 && t[0] == '0' && t[1] == '0' && '1' <= t[2] <= '9'
  }

  /** The nine listed tags are exactly the strings of the "00X" shape. */
  lemma ControlTagsAreControlRange(t: string)
    ensures t in ControlFieldTags <==> InControlRange(t)
  {
    if InControlRange(t) {
      var d := t[2];
      assert t == ['0', '0', d];
      if d == '1' { assert t == "001"; }
      else if d == '2' { assert t == "002"; }
      else if d == '3' { assert t == "003"; }
      else if d == '4' { assert t == "004"; }
      else if d == '5' { assert t == "005"; }
      else if d == '6' { assert t == "006"; }
      else if d == '7' { assert t == "007"; }
      else if d == '8' { assert t == "008"; }
      else { assert t == "009"; }
    }
  }

  /** Membership in the control-field set, for any tag, registered or not. */
  function IsControlTag(t: string): (b: bool)
    ensures b <==> InControlRange(t)
    ensures b ==> MatchesTagPattern(t)
  {
    ControlTagsAreControlRange(t);
    t in ControlFieldTags
  }

  /** The structural kind of a tag, decided by its shape and the control set only. */
  function TagClass(t: string): (k: Marc4JClass)
    ensures k == ControlFieldClass <==> InControlRange(t)
    ensures k == DataFieldClass <==> MatchesTagPattern(t) && !InControlRange(t)
    ensures k == SubfieldClass <==> !MatchesTagPattern(t)
  {
    if MatchesTagPattern(t) then
      if IsControlTag(t) then ControlFieldClass else DataFieldClass
    else
      SubfieldClass
  }

  class FieldInfo {
    var tag: Option<string>          // None where Java leaves the tag null
    var description: Option<string>  // None until a description is set
    var repeatable: bool
    var subFields: map<string, FieldInfo>

    /** Subfield nodes sit one level down: they are not this node, carry no
        tag and have no subfields of their own. */
    ghost predicate Valid()
      reads this, subFields.Values
    {
      forall c | c in subFields.Values :: c != this && c.tag == None && c.subFields == map[]
    }

    /** `new FieldInfo()`: no tag, no description, repeatable, no subfields. */
    constructor ()
      ensures tag == None && description == None && repeatable && subFields == map[]
      ensures Valid()
    {
      tag := None;
      description := None;
      repeatable := true;
      subFields := map[];
    }

    function GetTag(): (t: Option<string>)
      reads this`tag
      ensures t == tag
    {
      tag
    }

    function GetDescription(): (d: Option<string>)
      reads this`description
      ensures d == description
    {
      description
    }

    /** Depends on the tag alone; a node without a tag is not a control field. */
    function IsControlField(): (b: bool)
      reads this`tag
      ensures b <==> tag.Some? && InControlRange(tag.value)
    {
      tag.Some? && IsControlTag(tag.value)
    }

    /** Java dereferences the tag here, so a node without a tag is excluded. */
    function GetMarc4JClass(): (k: Marc4JClass)
      reads this`tag
      requires tag.Some?
      ensures k == TagClass(tag.value)
      ensures k == ControlFieldClass <==> IsControlField()
    {
      if MatchesTagPattern(tag.value) then
        if IsControlField() then ControlFieldClass else DataFieldClass
      else
        SubfieldClass
    }

    function IsRepeatable(): (b: bool)
      reads this`repeatable
      ensures b == repeatable
    {
      repeatable
    }

    /** The child registered under `code`, or null when there is none. */
    function GetSubfield(code: string): (r: FieldInfo?)
      reads this`subFields
      ensures r == null <==> code !in subFields
      ensures r != null ==> r == subFields[code]
    {
      if code in subFields then subFields[code] else null
    }

    /** Lookup by a character code: the same as lookup by the one-character string. */
    function GetSubfieldByChar(code: char): (r: FieldInfo?)
      reads this`subFields
      ensures r == GetSubfield([code])
    {
      var key := [code];
      if key in subFields then subFields[key] else null
    }

    method SetRepeatable(repeatable: bool)
      modifies this`repeatable
      ensures this.repeatable == repeatable
    {
      this.repeatable := repeatable;
    }

    method SetDescription(description: string)
      modifies this`description
      ensures this.description == Some(description)
    {
      this.description := Some(description);
    }

    /** Registers a fresh child under `name`, replacing any earlier one. */
    method AddSubField(name: string, repeatable: bool, description: string)
      requires Valid()
      modifies this`subFields
      ensures Valid()
      ensures subFields.Keys == old(subFields).Keys + {name}
      ensures fresh(subFields[name])
      ensures subFields[name].tag == None && subFields[name].subFields == map[]
      ensures subFields[name].repeatable == repeatable
      ensures subFields[name].description == Some(description)
      ensures forall k | k in old(subFields) && k != name :: subFields[k] == old(subFields)[k]
    {
      var info := new FieldInfo();
      info.SetRepeatable(repeatable);
      info.SetDescription(description);
      subFields := subFields[name := info];
    }
  }

  class FieldInfoBuilder {
    const f: FieldInfo

    /** A builder for `tag`: its node is repeatable, undescribed and has no subfields. */
    constructor (tag: string)
      ensures fresh(f) && f.Valid()
      ensures f.tag == Some(tag) && f.description == None
      ensures f.repeatable && f.subFields == map[]
    {
      var node := new FieldInfo();
      node.tag := Some(tag);
      f := node;
    }

    /** Hands out the builder's own node, not a copy: later builder calls
        stay visible through the returned reference. */
    function Build(): (n: FieldInfo)
      ensures n == f
    {
      f
    }

    method AddSubfield(code: string, description: string) returns (b: FieldInfoBuilder)
      requires f.Valid()
      modifies f`subFields
      ensures b == this && f.Valid()
      ensures f.subFields.Keys == old(f.subFields).Keys + {code}
      ensures fresh(f.subFields[code])
      ensures f.subFields[code].tag == None && f.subFields[code].subFields == map[]
      ensures !f.subFields[code].repeatable
      ensures f.subFields[code].description == Some(description)
      ensures forall k | k in old(f.subFields) && k != code :: f.subFields[k] == old(f.subFields)[k]
      ensures f.tag == old(f.tag) && f.repeatable == old(f.repeatable)
    {
      f.AddSubField(code, false, description);
      b := this;
    }

    method AddRepeatableSubfield(code: string, description: string) returns (b: FieldInfoBuilder)
      requires f.Valid()
      modifies f`subFields
      ensures b == this && f.Valid()
      ensures f.subFields.Keys == old(f.subFields).Keys + {code}
      ensures fresh(f.subFields[code])
      ensures f.subFields[code].tag == None && f.subFields[code].subFields == map[]
      ensures f.subFields[code].repeatable
      ensures f.subFields[code].description == Some(description)
      ensures forall k | k in old(f.subFields) && k != code :: f.subFields[k] == old(f.subFields)[k]
      ensures f.tag == old(f.tag) && f.repeatable == old(f.repeatable)
    {
      f.AddSubField(code, true, description);
      b := this;
    }

    method MakeRepeatable() returns (b: FieldInfoBuilder)
      requires f.Valid()
      modifies f`repeatable
      ensures b == this && f.Valid()
      ensures f.repeatable
      ensures f.tag == old(f.tag) && f.subFields == old(f.subFields)
    {
      f.SetRepeatable(true);
      b := this;
    }

    method MakeNonRepeatable() returns (b: FieldInfoBuilder)
      requires f.Valid()
      modifies f`repeatable
      ensures b == this && f.Valid()
      ensures !f.repeatable
      ensures f.tag == old(f.tag) && f.subFields == old(f.subFields)
    {
      f.SetRepeatable(false);
      b := this;
    }
  }

  /** Builds the schema for tag 245 (non-repeatable, with a non-repeatable
      subfield "a" and a repeatable subfield "9") and reads it back. */
  method BuildTitleSchema() returns (kind: Marc4JClass, fieldRepeatable: bool,
                                     aRepeatable: bool, nineRepeatable: bool, bPresent: bool)
    ensures kind == DataFieldClass
    ensures !fieldRepeatable && !aRepeatable && nineRepeatable && !bPresent
  {
    var builder := new FieldInfoBuilder("245");
    var _ := builder.MakeNonRepeatable();
    var _ := builder.AddSubfield("a", "Title");
    var _ := builder.AddRepeatableSubfield("9", "Local");
    var node := builder.Build();
    kind := node.GetMarc4JClass();
    fieldRepeatable := node.IsRepeatable();
    var a := node.GetSubfieldByChar('a');
    var nine := node.GetSubfield("9");
    aRepeatable := a.IsRepeatable();
    nineRepeatable := nine.IsRepeatable();
    bPresent := node.GetSubfield("b") != null;
  }

  /** The node returned by Build is the builder's live node: a builder call
      made after Build changes what the returned node reports. */
  method BuildReturnsLiveNode(tag: string) returns (before: bool, after: bool)
    ensures before && !after
  {
    var builder := new FieldInfoBuilder(tag);
    var node := builder.Build();
    before := node.IsRepeatable();
    var _ := builder.MakeNonRepeatable();
    after := node.IsRepeatable();
  }

  /** Registering the same code twice keeps only the later entry, and the last
      repeatability call on the field wins. */
  method LaterCallsWin(tag: string, code: string) returns (fieldRepeatable: bool,
                                                           subRepeatable: bool,
                                                           description: Option<string>)
    ensures fieldRepeatable && subRepeatable && description == Some("second")
  {
    var builder := new FieldInfoBuilder(tag);
    var _ := builder.AddSubfield(code, "first");
    var _ := builder.MakeNonRepeatable();
    var _ := builder.AddRepeatableSubfield(code, "second");
    var _ := builder.MakeRepeatable();
    var node := builder.Build();
    fieldRepeatable := node.IsRepeatable();
    var sub := node.GetSubfield(code);
    subRepeatable := sub.IsRepeatable();
    description := sub.GetDescription();
  }
}
