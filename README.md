# Upload presign issuer — Dafny model

This project models `MediaService`, the upload-presign issuer of the
monetix-platform API. At construction the service reads its storage
configuration once: the bucket, the public base URL (`S3_PUBLIC_BASE`, or the
endpoint when that is unset or empty) and the S3 client options. For each
request, `createPresignedUpload` does four things:

1. It sanitises the filename with `/[^\w.\-]/g → '_'`.
2. It builds the storage key `uploads/{userId}/{id}-{cleanName}` from a random
   UUID.
3. It asks the S3 presigner for a private PUT URL that is valid for 60 seconds.
4. It predicts the public URL `{publicBase}/{key}`.

It returns `{ key, uploadUrl, publicUrl, expiresIn: 60 }`.

Layout, one module per concern:

- `js_strings.dfy` (`JsStrings`): JavaScript strings as sequences of UTF-16
  code units.
  - The regex has no `u` flag, so it matches one code unit at a time. A
    character outside the Basic Multilingual Plane is two units and becomes
    `__`.
  - Also here: the `string | undefined` values that `config.get` returns, the
    `||` operator on them, how a template literal renders `undefined`, and the
    `/`-counting and last-segment functions used to state key properties.
- `file_names.dfy` (`FileNames`): the sanitiser and its properties.
- `object_keys.dfy` (`ObjectKeys`): the version-4 UUID shape, the key template
  and its structural properties.
- `media_service.dfy` (`Media`): configuration, the S3 request types, and the
  `MediaService` class. Its fields are immutable `const`s set by the
  constructor. `CreatePresignedUpload` is a method over them.
  - The random identifier is a parameter: the value `crypto.randomUUID()`
    returned, required to have the shape of section 4.4 of RFC 4122.
  - The presigner `getSignedUrl` is a parameter too: an uninterpreted function
    of (client options, command, expiry) that yields a URL or a rejection.
  - The method's contract pins down the request whose URL, or whose rejection,
    the method returns.

What the code does not do, and the model therefore does not do either:

- An empty filename or content type is not rejected. `CleanName([]) == []`.
- Missing configuration is not fatal. The `!` after each `config.get` is only a
  type assertion, so a missing value stays `undefined`. A missing public base
  and endpoint therefore yield a public URL that starts with `undefined/`.
- `..` is not removed, because dots are allowed: `../x` becomes `.._x`. The key
  is still safe, because the filename cannot add a `/`, and the last segment
  always starts with the 36-unit identifier.
- `userId` is not sanitised. The slash-count property is stated relative to
  the number of `/` in `userId`.

## Model

| member | source | states |
|---|---|---|
| `FileNames.CleanName` | apps/api/src/media/media.service.ts:35 | the sanitised name has the input's length; position by position, a unit in `[A-Za-z0-9_.-]` is kept and any other unit becomes `_` |
| `FileNames.CleanNameIsClean` | apps/api/src/media/media.service.ts:35 | every unit of a sanitised name is an ASCII letter, a digit, `_`, `.` or `-` |
| `FileNames.CleanNameHasNoSlash` | apps/api/src/media/media.service.ts:35 | a sanitised name contains no `/` (its count of `/` is zero) |
| `FileNames.CleanNameFixedPoint` | apps/api/src/media/media.service.ts:35 | sanitising leaves a name unchanged if and only if every unit is already in the allowed class |
| `FileNames.CleanNameIdempotent` | apps/api/src/media/media.service.ts:35 | sanitising twice equals sanitising once |
| `FileNames.CleanNameExamplePhoto` | apps/api/src/media/media.service.ts:35 | `my photo!.png` sanitises to `my_photo_.png` |
| `FileNames.CleanNameExampleTraversal` | apps/api/src/media/media.service.ts:35 | `../x` sanitises to `.._x`: dots survive, only `/` is replaced |
| `FileNames.CleanNameExampleSurrogatePair` | apps/api/src/media/media.service.ts:35 | without the `u` flag, an astral character (surrogate pair D83D DE00) becomes two `_` |
| `FileNames.CleanNameExampleEmpty` | apps/api/src/media/media.service.ts:35 | the empty filename is accepted and sanitises to the empty string |
| `ObjectKeys.ExampleUuidIsV4` | apps/api/src/media/media.service.ts:36 | a concrete `randomUUID()`-shaped value meets the version-4 precondition, so the precondition can be met |
| `ObjectKeys.UuidHasNoSlash` | apps/api/src/media/media.service.ts:36 | a version-4 UUID contains no `/` |
| `ObjectKeys.StorageKey` | apps/api/src/media/media.service.ts:37 | the key template `uploads/${userId}/${id}-${cleanName}`; its contract gives the key's length, the sum of the parts' lengths plus the template's ten units; its structure is stated by the slash-count, last-segment and injectivity lemmas below |
| `ObjectKeys.StorageKeySlashCount` | apps/api/src/media/media.service.ts:35-37 | the key has exactly two more `/` than `userId`, whatever the filename |
| `ObjectKeys.StorageKeyLastSegment` | apps/api/src/media/media.service.ts:35-37 | the key's last segment is `{id}-{cleanName}`, and everything before it is `uploads/{userId}/` |
| `ObjectKeys.StorageKeyLastSegmentIsNotDotted` | apps/api/src/media/media.service.ts:35-37 | the last segment starts with `{id}-` and is never `.` or `..` |
| `ObjectKeys.StorageKeyInjective` | apps/api/src/media/media.service.ts:36-37 | for one user, equal keys imply equal identifiers and equal clean names, so distinct UUIDs give distinct keys |
| `ObjectKeys.StorageKeyDeterminesUser` | apps/api/src/media/media.service.ts:35-37 | for any user ids, including ones that contain `/`, equal keys imply equal users, equal identifiers and equal clean names |
| `Media.PublicBaseOf` | apps/api/src/media/media.service.ts:20 | the public base is `S3_PUBLIC_BASE` when that is set and non-empty; unset or empty, it is `S3_ENDPOINT`; it is undefined exactly when both are missing or the base is empty and the endpoint is missing |
| `Media.PublicBaseIsClientEndpoint` | apps/api/src/media/media.service.ts:15-27 | without a non-empty `S3_PUBLIC_BASE`, the public base is the same endpoint the S3 client is built with; with one, the public base is that value while the client keeps `S3_ENDPOINT` |
| `JsStrings.JsOrTruthy` | apps/api/src/media/media.service.ts:20 | JavaScript's logical or of two `string` or `undefined` values is always one of its operands, and it is a non-empty string exactly when one of the operands is |
| `Media.PublicUrl` | apps/api/src/media/media.service.ts:47 | the public URL is the public base, `/`, then the key; an undefined base renders as `undefined/` followed by the key |
| `Media.MediaService.constructor` | apps/api/src/media/media.service.ts:13-28 | the fields hold the configured bucket, the fallback public base and the client options; nothing is validated |
| `Media.MediaService.CreatePresignedUpload` | apps/api/src/media/media.service.ts:30-50 | the presigner is asked for a private PUT on the configured bucket, with exactly the returned key, the caller's content type and the returned 60-second expiry; `uploadUrl` is its output and its rejection is the result; the key is `uploads/` + userId + `/` + id + `-` + cleanName, with two more `/` than userId and last segment `{id}-{cleanName}`; `publicUrl` is publicBase + `/` + key; `expiresIn` is 60 |
| `Media.DemoUserHasNoSlash` | apps/api/src/media/media.controller.ts:10 | the controller's fixed user id `demo-user` contains no `/` |
| `Media.DemoUserKey` | apps/api/src/media/media.service.ts:35-37 | for the controller's `demo-user` and `my photo!.png`, the key is `uploads/demo-user/{id}-my_photo_.png` |
| `Media.DemoUserKeySlashes` | apps/api/src/media/media.service.ts:35-37 | that key has exactly two `/` |
| `Media.DemoUserKeyLastSegment` | apps/api/src/media/media.service.ts:35-37 | that key's last segment is `{id}-my_photo_.png` |

## Left out

- AWS SigV4 signing (`getSignedUrl`, `S3Client`, `PutObjectCommand`): a foreign cryptographic library. It is an uninterpreted `Signer` function. The `S3Client` object is represented only by the options it is built with.
- `crypto.randomUUID()`: a randomness source. The identifier is an input that carries only its version-4 shape. Uniqueness across calls is stated as key injectivity in the identifier, not as a probability.
- CreatePresignedUpload: the number of presigning calls is not modelled. The presigner is a pure function, so the contract pins the request whose URL or rejection is returned, but it cannot rule out further calls whose results are discarded.
- `async`/`await` and the network behaviour of the presigner: a rejected promise is modelled as an `Err` result, and timing is not modelled.
- Inputs that are not strings at run time (for example a request body without `filename`, where `.replace` would throw): the TypeScript signature types all three input fields as strings, and the model takes them as strings.
- `apps/api/src/media/media.controller.ts`: NestJS routing, a pass-through. Its fixed `userId = 'demo-user'` appears only as the concrete caller in the `DemoUser*` lemmas.
- `apps/api/src/app.module.ts`: dependency-injection and `.env` wiring, with no behaviour. The configuration is a map from names to values.
- `apps/web/app/page.tsx`: landing-page presentation, with no logic.
