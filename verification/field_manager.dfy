/**
 * The front end's field manager: the attributes a field of a given type is stored as,
 * and whether fields of a type may be merged. A field type either lists sub-fields
 * ("actual fields") or is stored as one attribute named after the field; sub-field
 * attributes are named field + Sub (suffix naming, the default) or sub + Field (prefix
 * naming).
 */
module FieldManager {
  import opened Outcomes
  import opened Strings

  datatype Naming = Suffix | Prefix

  /** The part of a field type's definition the manager reads. */
  datatype FieldType = FieldType(actualFields: Option<seq<string>>, naming: Naming, notMergeable: bool)

  type Defs = map<string, FieldType>

  /** lcfirst: the first character lower-cased, the rest kept. */
  function Uncapitalize(s: string): (r: string)
    ensures |r| == |s|
  {
    if s == [] then [] else [LowerChar(s[0])] + s[1..]
  }

  /** The attribute of one sub-field of the field `field`. */
  function AttributeName(naming: Naming, field: string, sub: string): (r: string)
    ensures |r| == |field| + |sub|
  {
    match naming
    case Suffix => field + Capitalize(sub)
    case Prefix => sub + Capitalize(field)
  }

  /**
   * getActualAttributeList: the attributes of the field `fieldName` of type `fieldType`,
   * one per actual field and in the same order; the field's own name when the type has
   * no actual fields; nothing for a type the definitions do not know.
   */
  function ActualAttributeList(defs: Defs, fieldType: string, fieldName: string): (r: seq<string>)
    ensures fieldType !in defs ==> r == []
    ensures fieldType in defs && defs[fieldType].actualFields.None? ==> r == [fieldName]
    ensures fieldType in defs && defs[fieldType].actualFields.Some? ==>
              |r| == |defs[fieldType].actualFields.value|
              && forall i :: 0 <= i < |r| ==>
                   r[i] == AttributeName(defs[fieldType].naming, fieldName, defs[fieldType].actualFields.value[i])
  {
    if fieldType !in defs then []
    else
      match defs[fieldType].actualFields
      case None => [fieldName]
      case Some(subs) =>
        seq(|subs|, i requires 0 <= i < |subs| => AttributeName(defs[fieldType].naming, fieldName, subs[i]))
  }

  /** isMergeable: a known type that is not marked as not mergeable. */
  function IsMergeable(defs: Defs, fieldType: string): (r: bool)
    ensures r ==> fieldType in defs
    ensures fieldType in defs ==> (r <==> !defs[fieldType].notMergeable)
  {
    fieldType in defs && !defs[fieldType].notMergeable
  }

  // ---------------------------------------------------------------------------
  // Naming is reversible

  /**
   * Under suffix naming the attribute starts with the field name and the rest, with its
   * first letter lowered again, is the sub-field (sub-fields start lower-case).
   */
  lemma SuffixNameRecoversSub(field: string, sub: string)
    requires sub != [] && !IsUpper(sub[0])
    ensures var a := AttributeName(Suffix, field, sub);
            StartsWith(a, field) && Uncapitalize(a[|field|..]) == sub
  {
    var a := AttributeName(Suffix, field, sub);
    assert a[..|field|] == field;
    assert a[|field|..] == Capitalize(sub);
  }

  /** Under prefix naming the attribute starts with the sub-field and ends with the field capitalised. */
  lemma PrefixNameRecoversSub(field: string, sub: string)
    ensures var a := AttributeName(Prefix, field, sub);
            StartsWith(a, sub) && a[|sub|..] == Capitalize(field)
  {
  }

  /** Different sub-fields of one field give different attributes, under either naming. */
  lemma AttributeNamesDistinct(naming: Naming, field: string, x: string, y: string)
    requires x != [] && !IsUpper(x[0]) && y != [] && !IsUpper(y[0])
    requires x != y
    ensures AttributeName(naming, field, x) != AttributeName(naming, field, y)
  {
    match naming
    case Suffix =>
      SuffixNameRecoversSub(field, x);
      SuffixNameRecoversSub(field, y);
    case Prefix =>
      var a := AttributeName(Prefix, field, x);
      var b := AttributeName(Prefix, field, y);
      assert a[..|x|] == x;
      if |x| == |y| {
        assert b[..|x|] == y;
      }
  }

  /** Sub-fields listed without repetition give attributes without repetition. */
  lemma ActualAttributesDistinct(defs: Defs, fieldType: string, fieldName: string, i: nat, j: nat)
    requires fieldType in defs && defs[fieldType].actualFields.Some?
    requires var subs := defs[fieldType].actualFields.value;
             i < |subs| && j < |subs| && i != j && subs[i] != subs[j]
             && subs[i] != [] && !IsUpper(subs[i][0]) && subs[j] != [] && !IsUpper(subs[j][0])
    ensures var r := ActualAttributeList(defs, fieldType, fieldName);
            r[i] != r[j]
  {
    var subs := defs[fieldType].actualFields.value;
    AttributeNamesDistinct(defs[fieldType].naming, fieldName, subs[i], subs[j]);
  }

  // ---------------------------------------------------------------------------
  // The definitions of the front-end test

  function Plain(notMergeable: bool): FieldType
  {
    FieldType(None, Suffix, notMergeable)
  }

  const TestDefs: Defs := map[
    "varchar" := Plain(false),
    "int" := Plain(false),
    "float" := Plain(false),
    "enum" := Plain(false),
    "bool" := Plain(false),
    "date" := Plain(false),
    "datetime" := Plain(false),
    "link" := FieldType(Some(["id"]), Suffix, false),
    "linkParent" := FieldType(Some(["id", "type"]), Suffix, false),
    "linkMultiple" := FieldType(Some(["ids"]), Suffix, false),
    "personName" := FieldType(Some(["salutation", "first", "last"]), Prefix, true),
    "address" := FieldType(Some(["street", "city", "state", "country", "postalCode"]), Suffix, true)
  ]

  /** The expectations of the field-manager test against its definitions. */
  lemma TestMergeable()
    ensures !IsMergeable(TestDefs, "address") && IsMergeable(TestDefs, "link")
  {
  }

  lemma TestSuffixNaming()
    ensures ActualAttributeList(TestDefs, "address", "billingAddress")[0] == "billingAddressStreet"
    ensures ActualAttributeList(TestDefs, "link", "account") == ["accountId"]
  {
    assert Capitalize("street") == "Street";
    assert Capitalize("id") == "Id";
    var r := ActualAttributeList(TestDefs, "link", "account");
    assert |r| == 1 && r[0] == "account" + "Id";
    assert "account" + "Id" == "accountId";
  }

  lemma TestPrefixNaming()
    ensures ActualAttributeList(TestDefs, "personName", "name")[2] == "lastName"
  {
    assert Capitalize("name") == "Name";
  }

  lemma TestSingleAttribute()
    ensures ActualAttributeList(TestDefs, "varchar", "name") == ["name"]
  {
  }
}
