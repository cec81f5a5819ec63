/**
 * A chapter record: its decoding from the API's JSON, the convenience
 * initialiser used for update endpoints, its encoding for those endpoints,
 * and the page-URL list built from an MD@Home node.
 */
module Chapters {
  import opened Wrappers
  import opened Coding

  /** A manga chapter as returned by the API. Labels are kept verbatim. */
  datatype Chapter = Chapter(
    title: Option<string>,
    volume: Option<string>,
    chapter: Option<string>,
    language: Option<Locale>,
    createdDate: Date,
    updatedDate: Option<Date>,
    publishDate: Option<Date>,
    version: Int64)

  /** The image list of a chapter on an MD@Home node. */
  datatype ChapterImages = ChapterImages(hash: string, data: seq<string>, dataSaver: seq<string>)

  /** An MD@Home node: the server to fetch images from, and the chapter's images. */
  datatype AtHomeNode = AtHomeNode(baseUrl: Url, chapter: ChapterImages)

  /** The JSON key of each coded property of a chapter. */
  datatype CodingKey =
    | TitleKey | VolumeKey | ChapterKey | LanguageKey | HashKey | PagesKey | PagesLowResKey
    | CreatedDateKey | UpdatedDateKey | PublishDateKey | ChecksumsKey | VersionKey

  /** The name of the property a key codes. */
  function PropertyName(k: CodingKey): string {
    match k
    case TitleKey => "title"
    case VolumeKey => "volume"
    case ChapterKey => "chapter"
    case LanguageKey => "language"
    case HashKey => "hash"
    case PagesKey => "pages"
    case PagesLowResKey => "pagesLowRes"
    case CreatedDateKey => "createdDate"
    case UpdatedDateKey => "updatedDate"
    case PublishDateKey => "publishDate"
    case ChecksumsKey => "checksums"
    case VersionKey => "version"
  }

  /** Keys whose JSON name differs from the property's name. */
  predicate Renamed(k: CodingKey) {
    k in {LanguageKey, PagesKey, PagesLowResKey, CreatedDateKey, UpdatedDateKey, PublishDateKey}
  }

  /**
   * The JSON key of a property: the language, the two page lists and the
   * three dates are renamed; every other key is the property's name.
   */
  function KeyName(k: CodingKey): (s: string)
    ensures !Renamed(k) ==> s == PropertyName(k)
    ensures Renamed(k) ==> s != PropertyName(k)
    ensures k == LanguageKey ==> s == "translatedLanguage"
    ensures k == PagesKey ==> s == "data"
    ensures k == PagesLowResKey ==> s == "dataSaver"
    ensures k == CreatedDateKey ==> s == "createdAt"
    ensures k == UpdatedDateKey ==> s == "updatedAt"
    ensures k == PublishDateKey ==> s == "publishAt"
  {
    match k
    case TitleKey => "title"
    case VolumeKey => "volume"
    case ChapterKey => "chapter"
    case LanguageKey => "translatedLanguage"
    case HashKey => "hash"
    case PagesKey => "data"
    case PagesLowResKey => "dataSaver"
    case CreatedDateKey => "createdAt"
    case UpdatedDateKey => "updatedAt"
    case PublishDateKey => "publishAt"
    case ChecksumsKey => "checksums"
    case VersionKey => "version"
  }

  /** No two properties share a JSON key. */
  lemma KeyNamesDistinct(k1: CodingKey, k2: CodingKey)
    requires k1 != k2
    ensures KeyName(k1) != KeyName(k2)
  {
  }

  /** What a date-valued key decodes to: nothing when absent, null or rejected by the strategy. */
  function DateAt(fields: map<string, Json>, k: CodingKey, date: Json -> Option<Date>): Option<Date> {
    if KeyName(k) in fields && !fields[KeyName(k)].Null? then date(fields[KeyName(k)]) else None
  }

  /** `fields[key]` may be read by `decode(T?.self, forKey:)`: present, and null or decodable. */
  predicate NullableAt<T>(fields: map<string, Json>, k: CodingKey, decode: Json -> Option<T>) {
    KeyName(k) in fields && (fields[KeyName(k)].Null? || decode(fields[KeyName(k)]).Some?)
  }

  /** `fields[key]` may be read by `decode(T.self, forKey:)`: present, not null, decodable. */
  predicate RequiredAt<T>(fields: map<string, Json>, k: CodingKey, decode: Json -> Option<T>) {
    KeyName(k) in fields && !fields[KeyName(k)].Null? && decode(fields[KeyName(k)]).Some?
  }

  /** When the chapter decoder accepts an object, stated key by key. */
  predicate Decodable(fields: map<string, Json>, date: Json -> Option<Date>) {
    && NullableAt(fields, TitleKey, AsString)
    && NullableAt(fields, VolumeKey, AsString)
    && NullableAt(fields, ChapterKey, AsString)
    && RequiredAt(fields, CreatedDateKey, date)
    && NullableAt(fields, UpdatedDateKey, date)
    && NullableAt(fields, PublishDateKey, date)
    && RequiredAt(fields, VersionKey, AsInt)
    && NullableAt(fields, LanguageKey, AsString)
  }

  /** The string a key holds, or `None` when it holds anything else. */
  function RawString(fields: map<string, Json>, k: CodingKey): Option<string> {
    if KeyName(k) in fields then AsString(fields[KeyName(k)]) else None
  }

  /**
   * `init(from:)`: every listed key is read with `decode`, so each must be
   * present; the language code becomes a locale exactly when it is a string.
   * `date` is the decoder's date strategy.
   */
  function Decode(v: Json, date: Json -> Option<Date>): (r: Result<Chapter, DecodingError>)
    ensures r.Success? <==> v.Object? && Decodable(v.fields, date)
    ensures r.Success? ==> r.value.title == RawString(v.fields, TitleKey)
    ensures r.Success? ==> r.value.volume == RawString(v.fields, VolumeKey)
    ensures r.Success? ==> r.value.chapter == RawString(v.fields, ChapterKey)
    ensures r.Success? ==>
      (r.value.language.Some? <==> v.fields[KeyName(LanguageKey)].Str?)
    ensures r.Success? && r.value.language.Some? ==>
      r.value.language.value.identifier == v.fields[KeyName(LanguageKey)].s
    ensures r.Success? ==> r.value.version == v.fields[KeyName(VersionKey)].n
    ensures r.Success? ==> Some(r.value.createdDate) == DateAt(v.fields, CreatedDateKey, date)
    ensures r.Success? ==> r.value.updatedDate == DateAt(v.fields, UpdatedDateKey, date)
    ensures r.Success? ==> r.value.publishDate == DateAt(v.fields, PublishDateKey, date)
  {
    if !v.Object? then Failure(NotAnObject)
    else
      var fields := v.fields;
      var title :- DecodeNullable(fields, KeyName(TitleKey), AsString);
      var volume :- DecodeNullable(fields, KeyName(VolumeKey), AsString);
      var chapter :- DecodeNullable(fields, KeyName(ChapterKey), AsString);
      var createdDate :- DecodeRequired(fields, KeyName(CreatedDateKey), date);
      var updatedDate :- DecodeNullable(fields, KeyName(UpdatedDateKey), date);
      var publishDate :- DecodeNullable(fields, KeyName(PublishDateKey), date);
      var version :- DecodeRequired(fields, KeyName(VersionKey), AsInt);
      var langCode :- DecodeNullable(fields, KeyName(LanguageKey), AsString);
      var language := if langCode.Some? then Some(Locale(langCode.value)) else None;
      Success(Chapter(title, volume, chapter, language, createdDate, updatedDate, publishDate, version))
  }

  /**
   * The convenience initialiser for update endpoints. `now` stands for the
   * wall-clock date it reads; `volume` and `chapter` default to nil as in the
   * source; `pages` and `pagesLowRes` are accepted and not stored.
   */
  function Create(title: Option<string>, volume: Option<string> := None, chapter: Option<string> := None,
                  language: Locale, pages: seq<string>, pagesLowRes: seq<string>, now: Date): (c: Chapter)
    ensures c.title == title && c.volume == volume && c.chapter == chapter
    ensures c.language == Some(language)
    ensures c.createdDate == now && c.updatedDate == None && c.publishDate == None
    ensures c.version == 1
  {
    Chapter(title, volume, chapter, Some(language), now, None, None, 1)
  }

  /** The keys `encode(to:)` writes. */
  const EncodedKeys: set<string> :=
    {KeyName(TitleKey), KeyName(VolumeKey), KeyName(ChapterKey), KeyName(VersionKey), KeyName(LanguageKey)}

  /**
   * `encode(to:)`: title, volume and chapter (null when absent), the version,
   * and the language's identifier under "translatedLanguage". The language is
   * force-unwrapped, so it must be present.
   */
  function Encode(c: Chapter): (r: map<string, Json>)
    requires c.language.Some?
    ensures r.Keys == EncodedKeys
    ensures KeyName(CreatedDateKey) !in r && KeyName(UpdatedDateKey) !in r && KeyName(PublishDateKey) !in r
  {
    map[KeyName(TitleKey) := NullableString(c.title),
        KeyName(VolumeKey) := NullableString(c.volume),
        KeyName(ChapterKey) := NullableString(c.chapter),
        KeyName(VersionKey) := Number(c.version),
        KeyName(LanguageKey) := Str(c.language.value.identifier)]
  }

  /** Reading each written key back with the decoder's own field readers gives the field back. */
  lemma EncodedFieldsReadBack(c: Chapter)
    requires c.language.Some?
    ensures DecodeNullable(Encode(c), KeyName(TitleKey), AsString) == Success(c.title)
    ensures DecodeNullable(Encode(c), KeyName(VolumeKey), AsString) == Success(c.volume)
    ensures DecodeNullable(Encode(c), KeyName(ChapterKey), AsString) == Success(c.chapter)
    ensures DecodeRequired(Encode(c), KeyName(VersionKey), AsInt) == Success(c.version)
    ensures DecodeNullable(Encode(c), KeyName(LanguageKey), AsString) == Success(Some(c.language.value.identifier))
  {
  }

  /**
   * The update body is not a chapter record: decoding it fails on the missing
   * "createdAt" key, whatever the date strategy.
   */
  lemma EncodedBodyIsNotARecord(c: Chapter, date: Json -> Option<Date>)
    requires c.language.Some?
    ensures Decode(Object(Encode(c)), date) == Failure(KeyNotFound(KeyName(CreatedDateKey)))
  {
  }

  /** A chapter built by the convenience initialiser can always be encoded, with version 1. */
  lemma CreatedChapterEncodes(title: Option<string>, volume: Option<string>, chapter: Option<string>,
                              language: Locale, pages: seq<string>, pagesLowRes: seq<string>, now: Date)
    ensures Create(title, volume, chapter, language := language, pages := pages, pagesLowRes := pagesLowRes, now := now).language.Some?
    ensures Encode(Create(title, volume, chapter, language := language, pages := pages, pagesLowRes := pagesLowRes, now := now)) ==
      map[KeyName(TitleKey) := NullableString(title),
          KeyName(VolumeKey) := NullableString(volume),
          KeyName(ChapterKey) := NullableString(chapter),
          KeyName(VersionKey) := Number(1),
          KeyName(LanguageKey) := Str(language.identifier)]
  {
  }

  /** The pages passed to the convenience initialiser do not reach the chapter. */
  lemma CreateIgnoresPages(title: Option<string>, volume: Option<string>, chapter: Option<string>, language: Locale,
                           pages1: seq<string>, pagesLowRes1: seq<string>, pages2: seq<string>, pagesLowRes2: seq<string>, now: Date)
    ensures Create(title, volume, chapter, language := language, pages := pages1, pagesLowRes := pagesLowRes1, now := now) ==
            Create(title, volume, chapter, language := language, pages := pages2, pagesLowRes := pagesLowRes2, now := now)
  {
  }

  /** The page-id list `getPageUrls` walks: the data-saver list for low resolution. */
  function PageIds(details: AtHomeNode, lowRes: bool): seq<string> {
    if lowRes then details.chapter.dataSaver else details.chapter.data
  }

  /**
   * `getPageUrls(details:lowRes:)`: one URL per page id of the selected list,
   * in order. `chapterPage` is `MDPath.getChapterPage(baseURL:chapterHash:pageId:lowRes:)`,
   * whose URL building is not part of this model.
   */
  method GetPageUrls(chapterPage: (Url, string, string, bool) -> Url, details: AtHomeNode, lowRes: bool := false)
    returns (urls: seq<Url>)
    ensures |urls| == |PageIds(details, lowRes)|
    ensures forall i :: 0 <= i < |urls| ==>
      urls[i] == chapterPage(details.baseUrl, details.chapter.hash, PageIds(details, lowRes)[i], lowRes)
  {
    urls := [];
    var pageIds := if lowRes then details.chapter.dataSaver else details.chapter.data;
    for k := 0 to |pageIds|
      invariant |urls| == k
      invariant forall i :: 0 <= i < k ==>
        urls[i] == chapterPage(details.baseUrl, details.chapter.hash, pageIds[i], lowRes)
    {
      urls := urls + [chapterPage(details.baseUrl, details.chapter.hash, pageIds[k], lowRes)];
    }
  }
}
