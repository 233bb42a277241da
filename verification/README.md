# Imager X utility actions, no-op transform descriptor and oil-paint effect in Dafny

This project models three pieces of decision logic of the Imager X image-transform plugin
for Craft CMS:

- the control-panel **utility actions**: `actionGenerateTransforms`, which checks a request for
  selected volumes and transforms, then hands it to the transform generator and maps the
  outcome to a `{success, errors}` reply; and `actionClearCache`, which clears the transform
  cache, the runtime (remote image) cache or both and reports each store's file count;
- the **no-op image model**, the descriptor of a transform that is not carried out: its
  constructor, its reported width and height, its size in a unit and its data URI;
- the **oil-paint effect**, applied only under the Imagick driver and only for an integer
  parameter.

Modules: `Wrappers` (Option, Result), `Php` (PHP values, `empty()`, PHP 8 loose `==` against a
word, ASCII `strtolower`), `UtilityController`, `NoopImageModel`, `OilPaintEffect`.
Everything is a pure function over immutable datatypes. The collaborators the PHP code calls
but does not show are parameters: the transform generator is a function from its arguments to
"returned" or "threw with a message"; the crop computation is a function from source size,
transform and upscale setting to a crop size or a throwable; file size, mime type and image
size probes are inputs. Each cache store is the set of files under its directory, and a
delete call empties it.

Notes on the code:
- Validation can report two messages at once, volumes first; both come from one request.
- The generate reply is `success: true` whenever the generator returns; the generator's own
  per-item results are not part of the reply.
- The clear reply carries the file counts after clearing, not the number of files removed.
- A mime type lookup that returns null aborts construction: PHP refuses null for the typed
  `string` property, and only InvalidConfigException is caught.
- A failed `filesize` (PHP `false`) is coerced to 0 by the `int|float` property.
- A failed `getimagesize` (PHP `false`) is not suppressed where its width is read: the warning
  that read raises is thrown as an ErrorException by the application's error handler, which
  the constructor does not catch. A probed side below 1 is rejected by the `Box` constructor and
  becomes an ImagerException.

## Model

| member | source | states |
|---|---|---|
| `UtilityController.ValidationErrors` | src/controllers/UtilityController.php:47-57 | "No volumes selected." is reported exactly when volumes is not a non-empty array; "No transforms selected." exactly when the configured flag is off and the named transforms are empty; at most those two, volume error first |
| `UtilityController.GenerateTransforms` | src/controllers/UtilityController.php:40-82 | at most one generator call, made exactly when validation passes; the flag is true only for the string '1'; configured transforms pass an empty name list; success exactly when the generator returns; a throw gives its message as the only error; a rejection carries the validation errors |
| `UtilityController.RejectionIgnoresGenerator` | src/controllers/UtilityController.php:49-64 | a request without a non-empty volume array is rejected with "No volumes selected." and the same reply whatever the generator would do |
| `UtilityController.BothErrorsInOrder` | src/controllers/UtilityController.php:44-57 | missing volumes and an empty transform list with any flag other than '1' give both errors, volumes first |
| `UtilityController.Clear` | src/controllers/UtilityController.php:99-105 | a selected store ends empty, an unselected one keeps every file, no file is added, and at least one store is emptied |
| `UtilityController.ClearCache` | src/controllers/UtilityController.php:87-125 | rejects every kind but "all", "transforms", "runtime" with the single unknown-type error and no store change; empties transforms iff kind is all/transforms and runtime iff all/runtime; success carries two counts, transforms then runtime, equal to the stores' sizes after clearing |
| `UtilityController.ClearCacheIdempotent` | src/controllers/UtilityController.php:99-123 | a second clear of the same kind changes nothing and gives the same reply |
| `UtilityController.ClearAllReportsZero` | src/controllers/UtilityController.php:99-123 | clearing "all" leaves both stores empty and reports 0 and 0 |
| `UtilityController.ClearAllIsBoth` | src/controllers/UtilityController.php:99-105 | clearing "all" equals clearing "transforms" and then "runtime" |
| `UtilityController.ClearCacheAsWritten` | src/controllers/UtilityController.php:92-105 | the loose `in_array` rejects exactly the values other than the three strings and `true`; clearing only removes files |
| `UtilityController.AsWrittenTrueClearsNothing` | src/controllers/UtilityController.php:92-105 | a `true` kind passes the check, clears neither non-empty store and reports success |
| `UtilityController.AsWrittenAgreesElsewhere` | src/controllers/UtilityController.php:92-123 | on every kind other than `true` the action as written equals the strict one |
| `Php.LooseEqualsWordCases` | src/controllers/UtilityController.php:92 | PHP 8 loose equality with a lower-case word holds exactly for that string and for `true` |
| `Php.ToLower` | src/models/NoopImageModel.php:116 | lower-casing keeps the length, maps each character by ASCII lower-case and leaves no upper-case letter |
| `Php.ToLowerIdempotent` | src/models/NoopImageModel.php:116 | lower-casing twice is lower-casing once |
| `Php.ToLowerMatches` | src/models/NoopImageModel.php:116 | a string lower-cases to a lower-case word exactly when it spells that word letter by letter in either case |
| `NoopImageModel.Construct` | src/models/NoopImageModel.php:60-90 | succeeds exactly when the mime lookup gave a type or an InvalidConfigException, the probed box has both sides at least 1 and the crop succeeds; copies path, filename, url, extension, sets isNew false, size from filesize or 0, mime type only when found, width and height from the crop; a null mime type fails with the typed-property error, another mime throwable and any non-InvalidArgument crop throwable propagate with their message, a failed probe fails with the uncaught warning, and a box side below 1 or an InvalidArgumentException from the crop becomes an ImagerException with that cause |
| `NoopImageModel.ReportedSizeIsCrop` | src/models/NoopImageModel.php:95-106 | the width and height a constructed descriptor reports are the crop size |
| `NoopImageModel.MimeConfigFailureIsCosmetic` | src/models/NoopImageModel.php:71-75 | an InvalidConfigException from the mime lookup only leaves the mime type unset |
| `NoopImageModel.GetSize` | src/models/NoopImageModel.php:114-124 | units outside k/kb/m/mb/g/gb (after lower-casing) give the raw size; those units give a value that times 1024, 1024² or 1024³ is the size |
| `NoopImageModel.GetSizeIgnoresCase` | src/models/NoopImageModel.php:116-123 | units equal after lower-casing give the same size |
| `NoopImageModel.ByteUnitIsRaw` | src/models/NoopImageModel.php:114-122 | the default unit "b" (and "B") gives the raw size |
| `NoopImageModel.KilobyteSpellings` | src/models/NoopImageModel.php:116-121 | exactly k, K, kb, kB, Kb, KB select kilobytes |
| `NoopImageModel.MegabyteSpellings` | src/models/NoopImageModel.php:116-120 | exactly m, M, mb, mB, Mb, MB select megabytes |
| `NoopImageModel.GigabyteSpellings` | src/models/NoopImageModel.php:116-119 | exactly g, G, gb, gB, Gb, GB select gigabytes |
| `NoopImageModel.DataUri` | src/models/NoopImageModel.php:129-133 | the URI starts with "data:image/", ends with the payload, and is as long as prefix, extension, marker and payload together |
| `NoopImageModel.DataUriRoundTrip` | src/models/NoopImageModel.php:129-133 | parsing the data URI gives back the extension and payload for every extension without ';' |
| `NoopImageModel.ParsedDataUriIsExact` | src/models/NoopImageModel.php:129-133 | whatever the parser accepts is "data:image/" + extension + ";base64," + payload with a ';'-free extension |
| `OilPaintEffect.Apply` | src/effects/OilPaintEffect.php:23-33 | earlier operations are kept; one operation is added exactly when the driver is "imagick" and the parameter is an integer, and it is an oil paint with that radius |
| `OilPaintEffect.ApplyIsStateless` | src/effects/OilPaintEffect.php:23-33 | what one call issues depends on the driver and parameters only, never on the image's history |
| `OilPaintEffect.OtherDriverIsNoOp` | src/effects/OilPaintEffect.php:25 | under any driver other than "imagick" the image is unchanged |
| `OilPaintEffect.NonIntegerParamsAreIgnored` | src/effects/OilPaintEffect.php:29-32 | under Imagick a non-integer parameter leaves the image unchanged, without error |

## Findings

| source | as written | input that shows it | evidently intended | confidence | as-written member | corrected member |
|---|---|---|---|---|---|---|
| src/controllers/UtilityController.php:92 | `in_array` without its strict flag; in PHP 8 `true == 'all'` holds, while the store selection below uses strict `===` | `cacheClearType` = `true` (a JSON request body) | only the three strings are accepted, so a successful reply means a store was cleared | medium, not executed | `UtilityController.ClearCacheAsWritten` | `UtilityController.ClearCache` |

## Left out

- Request parsing, the `asJson` envelope, `Craft::t` localisation and `Craft::error` logging: framework glue; replies are plain datatypes and messages are the untranslated strings.
- The transform generator's internals (`generateByUtility`): not part of this model; it is a function of its arguments, so state it keeps between calls is folded into the choice of that function.
- `deleteImageTransformCaches`, `deleteRemoteImageCaches`, `FileHelper::normalizePath`, `filesInPath` and the runtime path lookup: filesystem I/O; each delete empties its store and a count is the size of the store's file set.
- `ImagerHelpers::getCropSize` geometry and the `allowUpscale` configuration lookup: not part of this model; the crop is an uninterpreted parameter and the resolved setting an input.
- The Imagine `Box` class is not part of this model; its rule that both sides must be at least 1 is modelled, and its message is represented by the rejected size.
- NoopImageModel.Construct: the failed-probe outcome assumes the application's error handler turns PHP warnings into exceptions; that handler is not part of this model.
- OilPaintEffect.Apply: requires an Imagick handle whenever the Imagick driver is active; with a GD handle under that driver `apply`'s `getImagick()` call raises an Error, which is not modelled.
- `filesize`, `getimagesize`, `FileHelper::getMimeType`, `file_get_contents` and `base64_encode`: I/O and library calls; their results are inputs.
- NoopImageModel.GetSize: returns the exact quotient; `getSize` rounds it to `precision` decimals as a float, which is floating point and not modelled.
- PHP's 64-bit integer width, float NaN and infinity, and array keys: PHP values use unbounded integers, reals and ordered element lists.
- The pixel work of Imagick's `oilPaintImage`: a foreign engine; the handle only records that the operation was issued.
- `RegisterExternalStoragesEvent`: a data bag with no behaviour.
- Geometry rules, cache put/get, per-item error collection, worker pools and cancellation: none of these is in the modelled code.
