# Releases API handles and release payloads, in Dafny

This project models the releases interface of the `hubcaps` GitHub client
(`src/releases/mod.rs`). It covers two parts.

1. **The handle chain.** `Releases` stands for the release collection of one
   repository. `Releases.Get(id)` descends to `ReleaseRef`, one release, and
   `ReleaseRef.Assets()` descends to `Assets`, that release's binary assets.
   Each handle holds the shared transport `github`, the `owner` and `repo`,
   and, where relevant, a release id. Each builds its request paths with a
   private `path(more)`, which interpolates those fields into a `format!`
   template. The model keeps the templates as written. It models `format!`
   itself (`Interpolation.Format`) and the decimal rendering of a `u64`
   (`Interpolation.Dec`), then proves what path each template yields.
   A leaf operation (`list`, `get`, `create`, `edit`, `delete`, `post`) is
   modelled by the `Request` it hands to the transport: the verb, the path,
   the body, and the type the response is decoded as. Descending a level
   issues no request. It copies the transport and the identity fields.
2. **`ReleaseOptions` and its builder.** The payload has a required
   `tag_name` and five optional fields. Fields that are `None` are skipped
   when serialising. `Options.Serialize` gives the emitted `(key, value)`
   fields in order. `ReleaseOptionsBuilder` is a class whose chained setters
   overwrite one field of the staged payload in place and return the builder
   itself. `Build` takes a snapshot without changing the builder.

Four definitions are reference views for stating properties. They are not
code of the source. `Options.FieldValue` says what a payload holds under a
JSON key. `Options.Lookup` reads a key out of emitted fields.
`Options.Parse` reads a payload back from its fields, as the receiving
server would. `Interpolation.ParseDec` reads a decimal string back.

Files:
- `wrappers.dfy`: `Option`.
- `interpolation.dfy`: `format!` with `{}` placeholders, `u64` `Display`.
- `options.dfy`: `ReleaseOptions`, its serialisation and the builder.
- `handles.dfy`: `Releases`, `ReleaseRef`, `Assets` and their requests.

The transport is a type parameter `G` of each handle. It is carried down the
chain unchanged, and its verbs are not modelled.

The code does not check that `tag_name` is non-empty, and neither does the
model: an empty tag is accepted (`ReleaseOptions.Default` has one).

## Model

| member | source | states |
|---|---|---|
| Interpolation.Format | src/releases/mod.rs:52-60 | `format!` output length is the template length, minus two per `{}`, plus the lengths of the arguments substituted |
| Interpolation.FormatLiteralPrefix | src/releases/mod.rs:148-150 | a brace-free literal prefix of a template is copied unchanged and adds no placeholder |
| Interpolation.FormatIsInterpolation | src/releases/mod.rs:52-60 | a template made of brace-free pieces and `{}` formats to the pieces with the arguments placed between them verbatim, with no escaping |
| Interpolation.Dec | src/releases/mod.rs:54-58 | a `u64` is interpolated as one or more decimal digits with no leading zero, except for `0` |
| Interpolation.ParseDecOfDec | src/releases/mod.rs:54-58 | reading the decimal rendering back gives the number |
| Interpolation.DecInjective | src/releases/mod.rs:54-58 | different ids render as different strings |
| Handles.NewAssets | src/releases/mod.rs:27-38 | `Assets::new` stores the transport, owner, repo and release id it is given, unchanged |
| Handles.NewReleaseRef | src/releases/mod.rs:88-99 | `ReleaseRef::new` stores the transport, owner, repo and release id it is given, unchanged |
| Handles.NewReleases | src/releases/mod.rs:136-146 | `Releases::new` stores the transport, owner and repo it is given, unchanged |
| Handles.ReleasesTemplateFormats | src/releases/mod.rs:148-150 | `"/repos/{}/{}/releases{}"` formats to `/repos/` owner `/` repo `/releases` more |
| Handles.ReleaseRefTemplateFormats | src/releases/mod.rs:101-109 | `"/repos/{}/{}/releases/{}{}"` formats to `/repos/` owner `/` repo `/releases/` id more |
| Handles.AssetsTemplateFormats | src/releases/mod.rs:52-60 | `"/repos/{}/{}/releases/{}/assets{}"` formats to `/repos/` owner `/` repo `/releases/` id `/assets` more |
| Handles.IdSuffix | src/releases/mod.rs:64 | `format!("/{}", id)` is `/` followed by the decimal id |
| Handles.NameQuery | src/releases/mod.rs:44 | `format!("?name={}", name)` is `?name=` followed by the name, unescaped |
| Handles.Assets.Path | src/releases/mod.rs:52-60 | the asset path is `/repos/{owner}/{repo}/releases/{releaseid}/assets` followed by the suffix |
| Handles.Assets.Post | src/releases/mod.rs:40-48 | a failed read sends nothing; a successful read sends one binary POST to `…/assets?name={name}` carrying every byte read and the given content type, decoded as an `Asset` |
| Handles.Assets.Get | src/releases/mod.rs:63-65 | GET `…/releases/{releaseid}/assets/{id}`, decoded as an `Asset` |
| Handles.Assets.Delete | src/releases/mod.rs:67-69 | DELETE `…/releases/{releaseid}/assets/{id}`, with a unit response |
| Handles.Assets.List | src/releases/mod.rs:71-73 | GET the collection path `…/releases/{releaseid}/assets`, with no trailing slash, decoded as a list of `Asset` |
| Handles.ReleaseRef.Path | src/releases/mod.rs:101-109 | the release path is `/repos/{owner}/{repo}/releases/{id}` followed by the suffix |
| Handles.ReleaseRef.Get | src/releases/mod.rs:111-113 | GET `/repos/{owner}/{repo}/releases/{id}`, decoded as a `Release` |
| Handles.ReleaseRef.Assets | src/releases/mod.rs:115-122 | the asset handle has the same transport, owner and repo, and `releaseid == id`; each of its paths is this release's path with `/assets` inserted before the suffix |
| Handles.Releases.Path | src/releases/mod.rs:148-150 | the collection path is `/repos/{owner}/{repo}/releases` followed by the suffix |
| Handles.Releases.Create | src/releases/mod.rs:152-154 | POST to the collection path with the payload's serialised fields as the JSON body, decoded as a `Release` |
| Handles.Releases.Edit | src/releases/mod.rs:156-161 | PATCH `/repos/{owner}/{repo}/releases/{id}` with the payload's serialised fields, decoded as a `Release` |
| Handles.Releases.Delete | src/releases/mod.rs:163-165 | DELETE `/repos/{owner}/{repo}/releases/{id}`, with a unit response |
| Handles.Releases.List | src/releases/mod.rs:167-169 | GET the collection path, decoded as a list of `Release` |
| Handles.Releases.Get | src/releases/mod.rs:171-178 | the release handle has the same transport, owner and repo and the given id; each of its paths is the collection path with `/{id}` inserted before the suffix |
| Handles.PathsAppendVerbatim | src/releases/mod.rs:148-150 | for every handle, `path(more)` is `path("")` followed by `more`, unchanged |
| Handles.DescentReachesAssets | src/releases/mod.rs:171-178 | `Releases::new(g, owner, repo).get(id).assets()` is the asset handle `(g, owner, repo, id)`, and its base path is `/repos/{owner}/{repo}/releases/{id}/assets` |
| Handles.ReleaseRoutesAgree | src/releases/mod.rs:156-165 | `ReleaseRef.path("")` is `Releases.path("/{id}")`, and the single-release GET, the edit and the delete all target it |
| Handles.AssetRoutesAgree | src/releases/mod.rs:63-73 | listing targets `path("")`; a single asset's GET and DELETE both target `path("") + "/" + id` |
| Handles.ReleasePathsDistinguishIds | src/releases/mod.rs:163-165 | within one repository, two release ids with the same delete path are equal |
| Handles.AssetPathsDistinguishIds | src/releases/mod.rs:63-65 | within one release, two asset ids with the same path are equal |
| Handles.UnescapedCoordinatesCollide | src/releases/mod.rs:148-150 | owner and repo are not escaped, so `("a/b", "c")` and `("a", "b/c")` address the same collection |
| Handles.DeleteExample | src/releases/mod.rs:163-165 | deleting release 42 of `o/r` is one DELETE of `/repos/o/r/releases/42` |
| Handles.UploadExample | src/releases/mod.rs:40-48 | uploading a 5-byte read as `asset.bin` is one POST-with-type to `path("") + "?name=asset.bin"` with those 5 bytes and the given type; a failed read sends nothing |
| Options.ReleaseOptions.Default | src/releases/mod.rs:243-246 | the derived default has an empty tag and every option `None` |
| Options.ReleaseOptions.New | src/releases/mod.rs:296-318 | each field of the payload is the corresponding argument |
| Options.ReleaseOptions.Builder | src/releases/mod.rs:320-325 | a fresh builder staging the tag, with every option `None` |
| Options.Serialize | src/releases/mod.rs:220-233 | the first emitted field is `tag_name` with the tag; only declared keys are emitted; keys are in strictly increasing declaration order, so none is repeated |
| Options.SerializeLookup | src/releases/mod.rs:220-233 | under every key, the emitted fields hold exactly what the payload holds: a set option with its value, an unset option not at all, any other key not at all |
| Options.SerializedKeys | src/releases/mod.rs:220-233 | the emitted keys are `tag_name` plus exactly the optional fields that are `Some` |
| Options.ParseSerialize | src/releases/mod.rs:220-233 | reading the emitted fields back recovers the payload, so skipping `None` loses nothing |
| Options.SetterTouchesOneKey | src/releases/mod.rs:249-281 | setting one optional field changes the emitted value under that key only; every other key keeps its value or its absence |
| Options.ReleaseOptionsBuilder.constructor | src/releases/mod.rs:239-247 | the staged payload has the tag and every option `None` |
| Options.ReleaseOptionsBuilder.Commitish | src/releases/mod.rs:249-255 | sets `target_commitish` to `Some(commit)`, changes no other field, and returns the same builder |
| Options.ReleaseOptionsBuilder.Name | src/releases/mod.rs:257-263 | sets `name` to `Some(name)`, changes no other field, and returns the same builder |
| Options.ReleaseOptionsBuilder.Body | src/releases/mod.rs:265-271 | sets `body` to `Some(body)`, changes no other field, and returns the same builder |
| Options.ReleaseOptionsBuilder.Draft | src/releases/mod.rs:273-276 | sets `draft` to `Some(draft)`, changes no other field, and returns the same builder |
| Options.ReleaseOptionsBuilder.Prerelease | src/releases/mod.rs:278-281 | sets `prerelease` to `Some(pre)`, changes no other field, and returns the same builder |
| Options.ReleaseOptionsBuilder.Build | src/releases/mod.rs:283-292 | returns a payload equal field for field to the staged one, without changing the builder |
| Options.TagOnly | src/releases/mod.rs:239-247 | a builder given only a tag builds a payload that serialises to the tag alone |
| Options.DraftPrerelease | src/releases/mod.rs:273-281 | `.draft(true).prerelease(false)` serialises to `tag_name`, `draft: true` and `prerelease: false`, in that order, and nothing else |
| Options.LastWriteWins | src/releases/mod.rs:257-263 | setting `name` twice keeps only the second value |
| Options.BuildThenSet | src/releases/mod.rs:283-292 | a payload built earlier is not changed by later setter calls; the next build reflects them |

## Left out

- The transport verbs (`get`, `post`, `post_type`, `patch`, `delete`) and the futures they return are network I/O in a module that is not part of this model. A leaf operation yields the `Request` it would pass to them.
- Reading the upload with `File::read_to_end` into a growing `Vec<u8>` is file I/O. The read is a parameter: `Some(bytes)` for a read that completes, `None` for one that fails. The `unwrap` panic is modelled as "no request".
- `hyper::mime::Mime` and `ContentType` are foreign types. `Mime` is a value passed through to the request unchanged.
- JSON encoding is modelled only up to the emitted keys, their order and their string or boolean values. Escaping and byte layout are not modelled.
- The `Asset` and `Release` response records (src/releases/mod.rs:183-218) have no logic and depend on `users::User`, which is not part of this model. A request names which of them it expects back.
- The `Clone + Connect` bounds and the sharing of the transport handle concern ownership and concurrency. The transport is a type parameter copied by value.
- `Into<String>` conversions are the identity on strings.
- `format!` brace escapes (`{{`, `}}`) and format specifications are not modelled. No template here uses them.
