/**
 * Entity metadata the ORM query builder consults: attributes with their storage kind
 * and relations with their link kind, plus the fixture entities the ORM unit tests
 * compile queries against (Account, Article, Comment, Contact, Job, Note, Post, Tag,
 * Team, User).
 */
module Schema {
  import opened Outcomes
  import opened Strings

  /** One piece of a foreign attribute: another entity's attribute or a literal text. */
  datatype ForeignPart = Field(attribute: string) | Literal(text: string)

  datatype AttrKind =
    /** A column of the entity's own table, named by ToDb of the attribute. */
    | Column
    /** A text column, left out of the default column list when skipTextColumns is set. */
    | TextColumn
    /** A list stored JSON-encoded in one column. */
    | JsonArrayColumn
    /** A projection through a belongs-to relation (postName, createdByName). */
    | Foreign(relation: string, parts: seq<ForeignPart>)
    /** A full name composed of two own columns (Contact.name). */
    | PersonName(first: string, last: string)
    /** Known to the entity but never written to or read from the table. */
    | NotStorable

  datatype Attribute = Attribute(name: string, kind: AttrKind)

  /** A join condition a relation always carries: the column must equal the value. */
  datatype Condition = Condition(attribute: string, value: string)

  datatype RelationKind =
    /** The entity holds the key attribute pointing at the foreign entity's id. */
    | BelongsTo(key: string)
    /** The foreign entity holds the key attribute pointing back at this entity's id. */
    | HasMany(foreignKey: string)
    /** The foreign entity holds a parent id and a parent type. */
    | HasChildren(foreignKey: string, foreignType: string)
    /** A junction entity holds both keys. */
    | ManyMany(junction: string, key: string, foreignKey: string, conditions: seq<Condition>)

  datatype Relation = Relation(name: string, foreignEntity: string, kind: RelationKind)

  datatype Entity = Entity(name: string, attributes: seq<Attribute>, relations: seq<Relation>)
  {
    /** The table of the entity and the alias the main query refers to it by. */
    function Table(): string { ToDb(name) }

    function FindAttribute(attr: string): (r: Option<Attribute>)
      ensures r.Some? ==> r.value in attributes && r.value.name == attr
      ensures r.None? ==> forall a :: a in attributes ==> a.name != attr
    {
      FindAttributeIn(attributes, attr)
    }

    function FindRelation(rel: string): (r: Option<Relation>)
      ensures r.Some? ==> r.value in relations && r.value.name == rel
      ensures r.None? ==> forall x :: x in relations ==> x.name != rel
    {
      FindRelationIn(relations, rel)
    }
  }

  function FindAttributeIn(attrs: seq<Attribute>, attr: string): (r: Option<Attribute>)
    ensures r.Some? ==> r.value in attrs && r.value.name == attr
    ensures r.None? ==> forall a :: a in attrs ==> a.name != attr
  {
    if attrs == [] then None
    else if attrs[0].name == attr then Some(attrs[0])
    else FindAttributeIn(attrs[1..], attr)
  }

  function FindRelationIn(rels: seq<Relation>, rel: string): (r: Option<Relation>)
    ensures r.Some? ==> r.value in rels && r.value.name == rel
    ensures r.None? ==> forall x :: x in rels ==> x.name != rel
  {
    if rels == [] then None
    else if rels[0].name == rel then Some(rels[0])
    else FindRelationIn(rels[1..], rel)
  }

  /** Attributes that are written to and read from the entity's own table. */
  predicate IsStorable(a: Attribute)
  {
    a.kind.Column? || a.kind.TextColumn? || a.kind.JsonArrayColumn?
  }

  function Col(name: string): Attribute { Attribute(name, Column) }

  const Account := Entity("Account",
    [Col("id"), Col("name"), Col("deleted")],
    [Relation("teams", "Team",
      ManyMany("EntityTeam", "entityId", "teamId", [Condition("entityType", "Account")]))])

  const Article := Entity("Article",
    [Col("id"), Col("name"), Attribute("description", TextColumn), Col("deleted")],
    [])

  const Comment := Entity("Comment",
    [Col("id"), Col("postId"), Attribute("postName", Foreign("post", [Field("name")])),
     Col("name"), Col("deleted")],
    [Relation("post", "Post", BelongsTo("postId"))])

  const Contact := Entity("Contact",
    [Col("id"), Attribute("name", PersonName("firstName", "lastName")),
     Col("firstName"), Col("lastName"), Col("deleted")],
    [])

  const Job := Entity("Job",
    [Col("id"), Attribute("array", JsonArrayColumn), Col("deleted")],
    [])

  const Note := Entity("Note",
    [Col("id"), Col("name"), Col("parentId"), Col("parentType"), Col("deleted")],
    [])

  const Post := Entity("Post",
    [Col("id"), Col("name"),
     Attribute("createdByName", Foreign("createdBy",
       [Field("salutationName"), Field("firstName"), Literal(" "), Field("lastName")])),
     Col("createdById"), Col("deleted"), Attribute("privateField", NotStorable)],
    [Relation("createdBy", "User", BelongsTo("createdById")),
     Relation("tags", "Tag", ManyMany("PostTag", "postId", "tagId", [])),
     Relation("comments", "Comment", HasMany("postId")),
     Relation("notes", "Note", HasChildren("parentId", "parentType"))])

  const Tag := Entity("Tag", [Col("id"), Col("name"), Col("deleted")], [])

  const Team := Entity("Team", [Col("id"), Col("name"), Col("deleted")], [])

  const User := Entity("User",
    [Col("id"), Col("salutationName"), Col("firstName"), Col("lastName"), Col("deleted")],
    [])

  const Entities: seq<Entity> := [Account, Article, Comment, Contact, Job, Note, Post, Tag, Team, User]

  function FindEntityIn(es: seq<Entity>, entityType: string): (r: Result<Entity>)
    ensures r.Ok? ==> r.value in es && r.value.name == entityType
    ensures r.Fail? ==> r.error == UnknownEntity(entityType) && forall e :: e in es ==> e.name != entityType
  {
    if es == [] then Fail(UnknownEntity(entityType))
    else if es[0].name == entityType then Ok(es[0])
    else FindEntityIn(es[1..], entityType)
  }

  /** The entity definition for an entity type, or UnknownEntity. */
  function FindEntity(entityType: string): (r: Result<Entity>)
    ensures r.Ok? ==> r.value in Entities && r.value.name == entityType
    ensures r.Fail? ==> r.error == UnknownEntity(entityType)
  {
    FindEntityIn(Entities, entityType)
  }

  /** Every fixture entity keys its rows by an `id` column. */
  lemma EveryEntityHasId(e: Entity)
    requires e in Entities
    ensures e.FindAttribute("id") == Some(Col("id"))
  {
  }
}
