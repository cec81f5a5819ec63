/**
 * The relationship resolver: a relationship record is an id, an object type
 * and an optional attributes payload whose shape is chosen by the type. A
 * payload that does not decode is dropped; the id and type survive.
 */
module Relationships {
  import opened Wrappers
  import opened Coding
  import Chapters
  import Groups

  /** The kinds of object a relationship can point to; `Unlisted` stands for any other case. */
  datatype ObjectType =
    | Manga | Chapter | CoverArt | Author | Artist | ScanlationGroup | Tag | User
    | Creator | Member | Leader | CustomList | LegacyMapping
    | Unlisted(rawValue: string)

  /** The payload shapes the resolver knows how to decode. */
  datatype Shape =
    | MangaShape | ChapterShape | CoverShape | AuthorShape | GroupShape
    | TagShape | UserShape | CustomListShape | MappingShape

  /** A decoded payload whose own structure is not part of this model. */
  datatype Entity = Entity(source: Json)

  /** A decoded attributes payload; its case is its shape. */
  datatype Attributes =
    | MangaAttributes(manga: Entity)
    | ChapterAttributes(chapter: Chapters.Chapter)
    | CoverAttributes(cover: Entity)
    | AuthorAttributes(author: Entity)
    | GroupAttributes(group: Groups.Group)
    | TagAttributes(tag: Entity)
    | UserAttributes(user: Entity)
    | CustomListAttributes(customList: Entity)
    | MappingAttributes(mapping: Entity)

  /** A resolved relationship. */
  datatype Relationship = Relationship(objectId: string, objectType: ObjectType, attributes: Option<Attributes>)

  /**
   * The decoders the resolver delegates to and that are not part of this
   * model: the object-type parser, one decoder per payload shape other than
   * the chapter's, and the date strategy the chapter decoder uses. `None`
   * means the decoder throws.
   */
  datatype Decoders = Decoders(
    objectType: Json -> Option<ObjectType>,
    manga: Json -> Option<Entity>,
    cover: Json -> Option<Entity>,
    author: Json -> Option<Entity>,
    group: Json -> Option<Groups.Group>,
    tag: Json -> Option<Entity>,
    user: Json -> Option<Entity>,
    customList: Json -> Option<Entity>,
    mapping: Json -> Option<Entity>,
    date: Json -> Option<Date>)

  const IdKey := "id"
  const TypeKey := "type"
  const AttributesKey := "attributes"

  /** The dispatch table: the shape of each object type's payload, if it has one. */
  function ShapeFor(t: ObjectType): (s: Option<Shape>)
    ensures s.None? <==> t.Unlisted?
  {
    match t
    case Manga => Some(MangaShape)
    case Chapter => Some(ChapterShape)
    case CoverArt => Some(CoverShape)
    case Author => Some(AuthorShape)
    case Artist => Some(AuthorShape)
    case ScanlationGroup => Some(GroupShape)
    case Tag => Some(TagShape)
    case User => Some(UserShape)
    case Creator => Some(AuthorShape)
    case Member => Some(UserShape)
    case Leader => Some(UserShape)
    case CustomList => Some(CustomListShape)
    case LegacyMapping => Some(MappingShape)
    case Unlisted(_) => None
  }

  /** The shape a decoded payload has. */
  function ShapeOf(a: Attributes): Shape {
    match a
    case MangaAttributes(_) => MangaShape
    case ChapterAttributes(_) => ChapterShape
    case CoverAttributes(_) => CoverShape
    case AuthorAttributes(_) => AuthorShape
    case GroupAttributes(_) => GroupShape
    case TagAttributes(_) => TagShape
    case UserAttributes(_) => UserShape
    case CustomListAttributes(_) => CustomListShape
    case MappingAttributes(_) => MappingShape
  }

  /**
   * The whole dispatch table, shape by shape: the object types each shape is
   * chosen for. The three person roles share the author shape, the three
   * user roles the user shape; every other shape has exactly one type.
   */
  lemma ShapePreimages(t: ObjectType)
    ensures ShapeFor(t) == Some(MangaShape) <==> t == Manga
    ensures ShapeFor(t) == Some(ChapterShape) <==> t == Chapter
    ensures ShapeFor(t) == Some(CoverShape) <==> t == CoverArt
    ensures ShapeFor(t) == Some(AuthorShape) <==> t == Author || t == Artist || t == Creator
    ensures ShapeFor(t) == Some(GroupShape) <==> t == ScanlationGroup
    ensures ShapeFor(t) == Some(TagShape) <==> t == Tag
    ensures ShapeFor(t) == Some(UserShape) <==> t == User || t == Member || t == Leader
    ensures ShapeFor(t) == Some(CustomListShape) <==> t == CustomList
    ensures ShapeFor(t) == Some(MappingShape) <==> t == LegacyMapping
  {
  }

  /** Decoding a non-null payload value against one shape; `None` means that decoder threw. */
  function DecodePayload(shape: Shape, v: Json, d: Decoders): (r: Option<Attributes>)
    ensures r.Some? ==> ShapeOf(r.value) == shape
    ensures shape == MangaShape ==> (r.Some? <==> d.manga(v).Some?) && (r.Some? ==> r.value == MangaAttributes(d.manga(v).value))
    ensures shape == ChapterShape ==>
      (r.Some? <==> Chapters.Decode(v, d.date).Success?) && (r.Some? ==> r.value == ChapterAttributes(Chapters.Decode(v, d.date).value))
    ensures shape == CoverShape ==> (r.Some? <==> d.cover(v).Some?) && (r.Some? ==> r.value == CoverAttributes(d.cover(v).value))
    ensures shape == AuthorShape ==> (r.Some? <==> d.author(v).Some?) && (r.Some? ==> r.value == AuthorAttributes(d.author(v).value))
    ensures shape == GroupShape ==> (r.Some? <==> d.group(v).Some?) && (r.Some? ==> r.value == GroupAttributes(d.group(v).value))
    ensures shape == TagShape ==> (r.Some? <==> d.tag(v).Some?) && (r.Some? ==> r.value == TagAttributes(d.tag(v).value))
    ensures shape == UserShape ==> (r.Some? <==> d.user(v).Some?) && (r.Some? ==> r.value == UserAttributes(d.user(v).value))
    ensures shape == CustomListShape ==>
      (r.Some? <==> d.customList(v).Some?) && (r.Some? ==> r.value == CustomListAttributes(d.customList(v).value))
    ensures shape == MappingShape ==>
      (r.Some? <==> d.mapping(v).Some?) && (r.Some? ==> r.value == MappingAttributes(d.mapping(v).value))
  {
    match shape
    case MangaShape => if d.manga(v).Some? then Some(MangaAttributes(d.manga(v).value)) else None
    case ChapterShape =>
      (match Chapters.Decode(v, d.date)
       case Success(c) => Some(ChapterAttributes(c))
       case Failure(_) => None)
    case CoverShape => if d.cover(v).Some? then Some(CoverAttributes(d.cover(v).value)) else None
    case AuthorShape => if d.author(v).Some? then Some(AuthorAttributes(d.author(v).value)) else None
    case GroupShape => if d.group(v).Some? then Some(GroupAttributes(d.group(v).value)) else None
    case TagShape => if d.tag(v).Some? then Some(TagAttributes(d.tag(v).value)) else None
    case UserShape => if d.user(v).Some? then Some(UserAttributes(d.user(v).value)) else None
    case CustomListShape => if d.customList(v).Some? then Some(CustomListAttributes(d.customList(v).value)) else None
    case MappingShape => if d.mapping(v).Some? then Some(MappingAttributes(d.mapping(v).value)) else None
  }

  /**
   * The do/catch around the switch: an object type without a shape gives no
   * payload; otherwise the "attributes" key is read with `decode` against the
   * shape, and any error it throws is swallowed into `None`.
   */
  function ResolveAttributes(fields: map<string, Json>, t: ObjectType, d: Decoders): (r: Option<Attributes>)
    ensures r.Some? <==>
      ShapeFor(t).Some? && AttributesKey in fields && !fields[AttributesKey].Null?
      && DecodePayload(ShapeFor(t).value, fields[AttributesKey], d).Some?
    ensures r.Some? ==> ShapeFor(t) == Some(ShapeOf(r.value))
    ensures r.Some? ==> r.value == DecodePayload(ShapeFor(t).value, fields[AttributesKey], d).value
  {
    match ShapeFor(t)
    case None => None
    case Some(shape) =>
      match DecodeRequired(fields, AttributesKey, v => DecodePayload(shape, v, d))
      case Success(a) => Some(a)
      case Failure(_) => None
  }

  /**
   * `MDRelationship.init(from:)`. Only the container, the id and the type can
   * make it throw; the attributes never do.
   */
  function Resolve(v: Json, d: Decoders): (r: Result<Relationship, DecodingError>)
    ensures r.Success? <==>
      v.Object? && IdKey in v.fields && v.fields[IdKey].Str?
      && TypeKey in v.fields && !v.fields[TypeKey].Null? && d.objectType(v.fields[TypeKey]).Some?
    ensures r.Success? ==> r.value.objectId == v.fields[IdKey].s
    ensures r.Success? ==> r.value.objectType == d.objectType(v.fields[TypeKey]).value
    ensures r.Success? && r.value.attributes.Some? ==>
      ShapeFor(r.value.objectType) == Some(ShapeOf(r.value.attributes.value))
    ensures r.Success? ==> r.value.attributes == ResolveAttributes(v.fields, r.value.objectType, d)
  {
    if !v.Object? then Failure(NotAnObject)
    else
      var objectId :- DecodeRequired(v.fields, IdKey, AsString);
      var objectType :- DecodeRequired(v.fields, TypeKey, d.objectType);
      Success(Relationship(objectId, objectType, ResolveAttributes(v.fields, objectType, d)))
  }

  /**
   * A resolved record whose type has a shape and whose payload is present
   * and non-null carries exactly what that shape's decoder makes of the
   * payload, or nothing when the decoder throws.
   */
  lemma ResolvedPayload(v: Json, d: Decoders)
    requires Resolve(v, d).Success? && ShapeFor(Resolve(v, d).value.objectType).Some?
    requires AttributesKey in v.fields && !v.fields[AttributesKey].Null?
    ensures Resolve(v, d).value.attributes ==
      DecodePayload(ShapeFor(Resolve(v, d).value.objectType).value, v.fields[AttributesKey], d)
  {
  }

  /** A cover-art record whose payload the cover decoder accepts resolves with that cover as its attributes. */
  lemma CoverArtResolvesToCover(fields: map<string, Json>, d: Decoders)
    requires IdKey in fields && fields[IdKey].Str?
    requires TypeKey in fields && !fields[TypeKey].Null? && d.objectType(fields[TypeKey]) == Some(CoverArt)
    requires AttributesKey in fields && !fields[AttributesKey].Null? && d.cover(fields[AttributesKey]).Some?
    ensures Resolve(Object(fields), d) ==
      Success(Relationship(fields[IdKey].s, CoverArt, Some(CoverAttributes(d.cover(fields[AttributesKey]).value))))
  {
  }

  /** A type outside the dispatch table never carries attributes, whatever the payload. */
  lemma UnlistedTypeHasNoAttributes(v: Json, d: Decoders)
    requires Resolve(v, d).Success? && Resolve(v, d).value.objectType.Unlisted?
    ensures Resolve(v, d).value.attributes == None
  {
  }

  /** A record without an "attributes" key still resolves when its id and type do, with no payload. */
  lemma MissingPayloadKeepsRecord(fields: map<string, Json>, d: Decoders)
    requires IdKey in fields && fields[IdKey].Str?
    requires TypeKey in fields && !fields[TypeKey].Null? && d.objectType(fields[TypeKey]).Some?
    requires AttributesKey !in fields
    ensures Resolve(Object(fields), d) ==
      Success(Relationship(fields[IdKey].s, d.objectType(fields[TypeKey]).value, None))
  {
  }

  /** The object agrees with `w` on the id and type keys, whatever else it holds. */
  predicate SameIdAndType(v: Json, w: Json) {
    && v.Object? && w.Object?
    && (IdKey in v.fields <==> IdKey in w.fields)
    && (IdKey in v.fields ==> v.fields[IdKey] == w.fields[IdKey])
    && (TypeKey in v.fields <==> TypeKey in w.fields)
    && (TypeKey in v.fields ==> v.fields[TypeKey] == w.fields[TypeKey])
  }

  /** The id and type do not depend on the payload: records agreeing on them resolve alike up to attributes. */
  lemma IdAndTypeIgnorePayload(v: Json, w: Json, d: Decoders)
    requires SameIdAndType(v, w)
    ensures Resolve(v, d).Success? <==> Resolve(w, d).Success?
    ensures Resolve(v, d).Success? ==>
      Resolve(v, d).value.objectId == Resolve(w, d).value.objectId
      && Resolve(v, d).value.objectType == Resolve(w, d).value.objectType
  {
  }

  /**
   * Decoding a list of relationship records: it fails exactly when one of
   * its records fails on its id or type, and otherwise resolves each record
   * on its own, in order.
   */
  function ResolveList(items: seq<Json>, d: Decoders): (r: Result<seq<Relationship>, DecodingError>)
    ensures r.Success? <==> forall i :: 0 <= i < |items| ==> Resolve(items[i], d).Success?
    ensures r.Success? ==> |r.value| == |items|
    ensures r.Success? ==> forall i :: 0 <= i < |items| ==> r.value[i] == Resolve(items[i], d).value
  {
    if items == [] then Success([])
    else
      var head :- Resolve(items[0], d);
      var tail :- ResolveList(items[1..], d);
      assert forall i :: 1 <= i < |items| ==> items[i] == items[1..][i - 1];
      Success([head] + tail)
  }

  /**
   * One malformed payload cannot fail its list: replacing any record by one
   * with the same id and type leaves the list's outcome unchanged, and every
   * other relationship as it was.
   */
  lemma {:induction false} PayloadFailureIsIsolated(items: seq<Json>, k: nat, w: Json, d: Decoders)
    requires k < |items| && SameIdAndType(items[k], w)
    ensures ResolveList(items[k := w], d).Success? <==> ResolveList(items, d).Success?
    ensures ResolveList(items, d).Success? ==>
      forall i :: 0 <= i < |items| && i != k ==>
        ResolveList(items[k := w], d).value[i] == ResolveList(items, d).value[i]
  {
    IdAndTypeIgnorePayload(items[k], w, d);
    var items' := items[k := w];
    assert forall i :: 0 <= i < |items| ==> (Resolve(items'[i], d).Success? <==> Resolve(items[i], d).Success?);
  }

  /** `relationships.first(where: { $0.objectType == t })`, as callers look a relationship up. */
  function FirstOfType(rels: seq<Relationship>, t: ObjectType): (r: Option<nat>)
    ensures r.Some? ==> r.value < |rels| && rels[r.value].objectType == t
    ensures r.Some? ==> forall j :: 0 <= j < r.value ==> rels[j].objectType != t
    ensures r.None? <==> forall j :: 0 <= j < |rels| ==> rels[j].objectType != t
  {
    if rels == [] then None
    else if rels[0].objectType == t then Some(0)
    else
      match FirstOfType(rels[1..], t)
      case None => None
      case Some(i) => Some(i + 1)
  }
}
