# MangaDexLib core, modelled in Dafny

This project models the logic of the MangaDexLib Swift client that does more
than forward requests:

- **Relationship resolver** (`relationship.dfy`, module `Relationships`).
  A relationship record holds an `id`, a `type` and an optional `attributes`
  payload. The resolver reads the id and the type. A fixed table then picks
  one of nine payload shapes for the thirteen listed object types. Any
  failure while decoding the payload is swallowed, so `attributes` becomes
  absent while the id and type survive. The decoders of the individual
  payload shapes are parameters (a `Decoders` record of functions that
  succeed or fail), except the chapter shape, which uses the modelled chapter
  decoder.
- **Chapter record** (`chapter.dfy`, module `Chapters`). It covers
  field-by-field decoding, the convenience initialiser used for update
  endpoints, the update encoder, and `getPageUrls`. That last one is a loop
  building one page URL per page id of the selected image list.
- **API object** (`api.dfy`, module `Api`). The `sessionJwt` observer keeps
  the request handler's auth token in step with the session token. The
  completion block built around every request creates the response,
  overwrites its error in two sequential steps (captcha, then status code),
  and calls the caller's completion once.
- **Group record** (`group.dfy`, module `Groups`). It covers the coding keys,
  the create/update initialiser with its fixed defaults, and the encoder,
  which writes only `name` and `version`.

`coding.dfy` (module `Coding`) holds the JSON values and the two keyed-decode
primitives the decoders are built from. `decode(T.self, forKey:)` needs a
present, non-null, decodable value. `decode(T?.self, forKey:)` needs the key
present and maps null to nil. `wrappers.dfy` holds `Option` and `Result`.

Inputs that are foreign or non-deterministic are parameters:

- the wall-clock date read by both initialisers (`now`);
- the date decoding strategy (`date`);
- `MDPath.getChapterPage` (`chapterPage`);
- the object-type parser and the payload decoders that are not shown (`Decoders`).

## Model

| member | source | states |
|---|---|---|
| `Coding.DecodeRequired` | Sources/Objects/MDChapter.swift:80-83 | `decode(T.self, forKey:)` succeeds exactly when the key is present, non-null and decodable; a missing key is `KeyNotFound` |
| `Coding.DecodeNullable` | Sources/Objects/MDChapter.swift:77-79 | `decode(T?.self, forKey:)` needs the key present (it is not `decodeIfPresent`); null gives nil, anything else must decode |
| `Relationships.ShapeFor` | Sources/Objects/MDRelationship.swift:39-81 | the dispatch table gives a shape to every listed object type and to no other (`default: nil`) |
| `Relationships.ShapePreimages` | Sources/Objects/MDRelationship.swift:39-78 | the full table, shape by shape: manga→manga, chapter→chapter, cover_art→cover, scanlationGroup→group, tag→tag, customList→custom list, legacyMapping→mapping, and exactly author, artist and creator share the author shape, exactly user, member and leader the user shape |
| `Relationships.DecodePayload` | Sources/Objects/MDRelationship.swift:39-78 | for each of the nine shapes, the payload decodes exactly when that shape's decoder accepts it, and the result is that decoder's value wrapped in that shape's case (the chapter shape uses the chapter decoder) |
| `Relationships.ResolveAttributes` | Sources/Objects/MDRelationship.swift:37-86 | attributes are present if and only if the type has a shape, the `attributes` key is present and non-null, and the payload decodes against that shape; when present, their shape is the type's shape and their value is what that shape's decoder produced |
| `Relationships.Resolve` | Sources/Objects/MDRelationship.swift:33-87 | the record fails if and only if it is not an object, or its `id` is not a string, or its `type` is absent, null or unparseable; the id and type come from those keys; the attributes are exactly the best-effort payload decode for that type, so present attributes always have the type's shape |
| `Relationships.ResolvedPayload` | Sources/Objects/MDRelationship.swift:37-86 | a resolved record whose type has a shape and whose payload is present and non-null carries exactly that shape's decode of the payload, or nothing when it throws |
| `Relationships.CoverArtResolvesToCover` | Sources/Objects/MDRelationship.swift:46-48 | a cover_art record whose payload the cover decoder accepts resolves with that cover as its attributes, as the cover-art lookup of Tests/MangaDexLibTests/MDLibApiTests+Manga.swift relies on |
| `Relationships.UnlistedTypeHasNoAttributes` | Sources/Objects/MDRelationship.swift:79-80 | a type outside the thirteen gives no attributes whatever the payload |
| `Relationships.MissingPayloadKeepsRecord` | Sources/Objects/MDRelationship.swift:37-86 | a record without an `attributes` key still resolves, with no attributes |
| `Relationships.IdAndTypeIgnorePayload` | Sources/Objects/MDRelationship.swift:34-36 | records agreeing on `id` and `type` both succeed or both fail, with the same id and type |
| `Relationships.ResolveList` | Sources/Objects/MDRelationship.swift:83-86 | a list of records fails if and only if some record fails on its id or type; otherwise it is each record resolved on its own, in order |
| `Relationships.PayloadFailureIsIsolated` | Sources/Objects/MDRelationship.swift:83-86 | replacing one record's payload (same id and type) does not change whether the list decodes, nor any other relationship in it |
| `Relationships.FirstOfType` | Tests/MangaDexLibTests/MDLibApiTests+Cover.swift:55-57 | the lookup callers do returns the first relationship of the given type, and none exactly when no relationship has that type |
| `Chapters.Decode` | Sources/Objects/MDChapter.swift:75-91 | decoding succeeds if and only if the value is an object in which every read key is present and well-typed; title, volume and chapter are the raw strings; the language is present exactly when `translatedLanguage` holds a string, and then has that identifier; the version is the `version` number; `createdDate` is the date strategy's reading of `createdAt`, and `updatedDate`/`publishDate` that of `updatedAt`/`publishAt`, nil for null |
| `Chapters.KeyName` | Sources/Objects/MDChapter.swift:59-72 | `language` is coded as `translatedLanguage`, `pages` as `data`, `pagesLowRes` as `dataSaver`, the three dates as `createdAt`, `updatedAt`, `publishAt`; every other key under its property name |
| `Chapters.KeyNamesDistinct` | Sources/Objects/MDChapter.swift:59-72 | no two chapter properties share a JSON key |
| `Chapters.Create` | Sources/Objects/MDChapter.swift:98-114 | the convenience initialiser keeps title, volume, chapter and language, sets version 1 and no update or publish date |
| `Chapters.CreateIgnoresPages` | Sources/Objects/MDChapter.swift:98-114 | the pages and low-resolution pages passed in do not affect the chapter |
| `Chapters.Encode` | Sources/Objects/MDChapter.swift:120-130 | requires a language (force unwrap); writes exactly title, volume, chapter, version and translatedLanguage, and no date |
| `Chapters.EncodedFieldsReadBack` | Sources/Objects/MDChapter.swift:120-130 | each written key, read back with the decoder's own field reader, gives the chapter's field (the language as its identifier) |
| `Chapters.EncodedBodyIsNotARecord` | Sources/Objects/MDChapter.swift:75-130 | decoding an update body fails on the missing `createdAt` key, whatever the date strategy |
| `Chapters.CreatedChapterEncodes` | Sources/Objects/MDChapter.swift:98-130 | a chapter from the convenience initialiser always meets the encoder's precondition and encodes with version 1 and the given language identifier |
| `Chapters.GetPageUrls` | Sources/Objects/MDChapter.swift:45-51 | one URL per id of the selected list (`dataSaver` when `lowRes`, `data` otherwise, `lowRes` defaulting to false), URL i built from page id i with the node's base URL, the chapter hash and the same flag |
| `Groups.KeyName` | Sources/Objects/MDGroup.swift:63-82 | `createdDate` is coded as `createdAt`, `updatedDate` as `updatedAt`, every other property under its own name |
| `Groups.KeyNamesDistinct` | Sources/Objects/MDGroup.swift:63-82 | no two properties share a JSON key |
| `Groups.Create` | Sources/Objects/MDGroup.swift:90-114 | keeps the name; alternative names and focused languages empty; every optional profile field nil; no update date; version 1 |
| `Groups.CreateIgnoresMembers` | Sources/Objects/MDGroup.swift:90-91 | the leader id and member ids leave no trace in the group |
| `Groups.Encode` | Sources/Objects/MDGroup.swift:118-122 | writes exactly the `name` and `version` keys, holding the group's name and its version |
| `Groups.EncodeKeepsOnlyNameAndVersion` | Sources/Objects/MDGroup.swift:118-122 | two groups encode alike if and only if their names and versions agree |
| `Groups.CreatedGroupBody` | Sources/Objects/MDGroup.swift:90-122 | the body sent for a newly built group is its name and version 1 |
| `Api.ApiClient.constructor` | Sources/API/MDApi.swift:21-33 | a new API object has no tokens and its handler's auth token matches |
| `Api.ApiClient.SetSessionJwt` | Sources/API/MDApi.swift:25-29 | after any assignment to `sessionJwt`, the handler's auth token equals the new value; the refresh token is unchanged |
| `Api.ApiClient.SetRefreshJwt` | Sources/API/MDApi.swift:33 | from any state, assigning `refreshJwt` leaves the session token and the handler's auth token unchanged, so a state in sync stays in sync |
| `Api.Contains` | Sources/API/MDApi.swift:82 | `body.contains(marker)` holds if and only if the marker occurs at some position of the body |
| `Api.ResponseError` | Sources/API/MDApi.swift:80-89 | with no status, or a status in 200..<400, the error is the transport error; any other status gives `wrongStatusCode` with the body and the transport's underlying error; a captcha kind is never introduced |
| `Api.CaptchaIsOverwritten` | Sources/API/MDApi.swift:81-89 | a 403 with a captcha body is first marked `captchaRequired` and always ends as `wrongStatusCode` |
| `Api.RequestCompleted` | Sources/API/MDApi.swift:73-92 | the response carries the url, content and status unchanged, its error is `ResponseError` of them, and the caller's completion receives it exactly once |

## Left out

- Chapter ordering: the modelled source has no chapter or volume label parsing and no chapter ordering. `volume` and `chapter` are kept as raw optional strings, and no ordering is modelled.
- Payload decoders for manga, cover, author, tag, user, custom list and legacy mapping, and the synthesised group decoder, are parameters. Their source is not part of this model, except `MDGroup`'s coding keys.
- `MDObjectType` raw-value parsing is a parameter. How unknown wire strings decode is not assumed; `Unlisted` stands for every enum case outside the switch.
- Date decoding is a parameter, and dates are an integer stand-in, because Swift's `Date` is floating point.
- `Locale(identifier:)` is modelled as keeping the identifier verbatim, and URLs are kept as text. Both are foreign.
- JSON numbers are integers only, and `Int` is 64-bit (`Int64`). Floating-point values are not modelled.
- `Mismatch` stands for both Swift's `typeMismatch` and `dataCorrupted`. Which of the two is thrown is not modelled; the resolver swallows both anyway.
- `Api.Contains` works on `seq<char>`. Swift compares extended grapheme clusters, which is not modelled.
- `MDRequestHandler` is not part of this model. Its `authToken` is taken to start nil. Its `get`, `post` and `setUserAgent`, and with them `performGet`, `performPost` and `setUserAgent` of the API object, are network I/O and are left out.
- `MDResponse` and `MDApiError` are not part of this model beyond the fields used here. Error kinds other than the two produced here are `OtherKind`.
- `requestCompletionBlock` returns a closure. The model is the method that closure runs, and the caller's completion is an object recording its calls.
- `MDAtHomeNode.result` is not modelled, because `getPageUrls` does not read it.
- `Relationships.FirstOfType` returns the index of the first match rather than the relationship itself.
- The request wrappers for manga, chapters and statistics, the URL builders, `MDMangaFilter`, `MDStatistics`, `MDResult`, `MDMarkChapters` and the legacy `MangaDexLib/Objects` files are left out. They are request plumbing or plain records, and the legacy files are outside the built target.
