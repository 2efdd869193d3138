# Company creation: a Dafny model

This project models the company API of a job-board client
(`src/api/apiCompanies.js`). The main operation is `addNewCompany`. It creates a
company in two phases against two stores that share no transaction:

1. It validates that the form carries a logo.
2. It derives an object key `logo-<random>-<name with whitespace runs replaced by "-">`.
3. It uploads the logo to the `company-logo` bucket of the object store.
4. It builds the logo's public address.
5. It inserts a `companies` row holding the name and that address.
6. If the insert fails, it removes the uploaded logo again and throws.

The listing operation `getCompanies` maps a failed read to `null`.

The model has three modules:

- `Wrappers` (wrappers.dfy) holds the `Option` datatype.
- `Naming` (naming.dfy) holds the pure string helpers. These are the ECMAScript `\s`
  character class, the whitespace collapsing of `replace(/\s+/g, '-')`, the decimal
  rendering of the disambiguator, the object key with its parser, and the public
  address with its inverse.
- `Companies` (companies.dfy) holds the rest:
  - the store and call datatypes and `GetCompanies`;
  - `Create`, a pure function giving one creation attempt's effect on both stores
    and how the attempt ends;
  - the lemmas about `Create`, including the cross-store consistency invariant;
  - the class `Backend`. Its fields are the object store (a map from bucket and key
    to the logo), the companies table (a sequence of rows) and the log of calls the
    stores received. `Backend.AddNewCompany` performs the protocol step by step
    through the three store methods and is proved equal to `Create`.

Each remote call (upload, insert, remove) gets its answer as an input. The answer
is `Succeeds` or `FailsWith(message)`. The value of `Math.floor(Math.random() * 90000)`
is the input `random`, with `random < 90000`. The base address of the store
(`supabaseUrl`) is the constant field `Backend.baseUrl`.

## Model

| member | source | states |
|---|---|---|
| `Naming.IsWhitespace` | src/api/apiCompanies.js:30 | the class `\s` (the ECMAScript WhiteSpace and LineTerminator characters) contains space, tab, line feed and carriage return, and contains neither `-` nor any decimal digit, so the dash a run becomes and the digits of the key are never whitespace |
| `Naming.SanitizeRemovesWhitespace` | src/api/apiCompanies.js:30 | no whitespace character is left in the sanitised name |
| `Naming.SanitizeKeepsWord` | src/api/apiCompanies.js:30 | a name without whitespace is left unchanged |
| `Naming.SanitizeRun` | src/api/apiCompanies.js:30 | a whole whitespace run followed by a non-whitespace character or the end becomes exactly one `-` |
| `Naming.SanitizeSplit` | src/api/apiCompanies.js:30 | a non-whitespace character is kept in place, and the text on either side of it is sanitised independently, so the order of non-whitespace characters is preserved |
| `Naming.SanitizeRunBetween` | src/api/apiCompanies.js:30 | a maximal whitespace run anywhere in a name, at its start, in its middle or at its end, becomes exactly one `-`, and the text on each side of it is sanitised on its own |
| `Naming.SanitizeWords` | src/api/apiCompanies.js:30 | two words around any whitespace run are joined by exactly one `-` |
| `Naming.SanitizeIdempotent` | src/api/apiCompanies.js:30 | sanitising twice gives the same result as sanitising once |
| `Naming.SanitizeFixedPoint` | src/api/apiCompanies.js:30 | sanitising leaves a name unchanged if and only if it contains no whitespace |
| `Naming.SanitizeExample` | src/api/apiCompanies.js:30 | `Acme  Corp` (two spaces) becomes `Acme-Corp` |
| `Naming.Sanitize` | src/api/apiCompanies.js:30 | sanitising never makes the name longer |
| `Naming.Decimal` | src/api/apiCompanies.js:29-30 | the rendered disambiguator is a non-empty string of digits with no leading zero |
| `Naming.ParseDecimalInverse` | src/api/apiCompanies.js:29-30 | reading the rendered disambiguator back as a number gives the same number |
| `Naming.DecimalLength` | src/api/apiCompanies.js:29 | a disambiguator below 90000 renders in at most five digits |
| `Naming.DecimalExample` | src/api/apiCompanies.js:30 | 12345 renders as `12345` |
| `Naming.ObjectKey` | src/api/apiCompanies.js:29-30 | every key starts with `logo-`, contains no whitespace, and is at most 11 characters longer than the name |
| `Naming.ObjectKeyRoundTrip` | src/api/apiCompanies.js:29-30 | parsing a key gives back exactly the disambiguator and the sanitised name it was built from |
| `Naming.ObjectKeyInjective` | src/api/apiCompanies.js:29-30 | two keys are equal if and only if their disambiguators are equal and their names sanitise to the same text |
| `Naming.ObjectKeyExample` | src/api/apiCompanies.js:29-30 | the name `Acme  Corp` with disambiguator 12345 gives the key `logo-12345-Acme-Corp` |
| `Naming.ObjectKeyRunLengthCollision` | src/api/apiCompanies.js:29-30 | with the same disambiguator, two names that differ only in the length of one maximal whitespace run get the same key, wherever the run is and whatever the text around it (for example `Acme  Big Corp` and `Acme Big Corp`, or a leading run) |
| `Naming.PublicUrl` | src/api/apiCompanies.js:59 | the public address starts with the store's base address and ends with the key |
| `Naming.PublicUrlRoundTrip` | src/api/apiCompanies.js:59 | the key can be read back from the public address built from it |
| `Naming.PublicUrlInjective` | src/api/apiCompanies.js:59 | two keys have the same public address if and only if they are the same key |
| `Companies.StorageError` | src/api/apiCompanies.js:53 | the message thrown for a failed upload is `Storage Error: ` followed by the store's message, kept verbatim at its end |
| `Companies.DatabaseError` | src/api/apiCompanies.js:79 | the message thrown for a failed insert is `Database Error: ` followed by the store's message, kept verbatim at its end |
| `Companies.LogoObject` | src/api/apiCompanies.js:40-42 | the logo is uploaded to the `company-logo` bucket, under a key that parses back to the disambiguator and the sanitised name |
| `Companies.ErrorMessagesDistinct` | src/api/apiCompanies.js:25-79 | the three error messages (missing logo, `Storage Error: …`, `Database Error: …`) differ from each other for every pair of store messages |
| `Companies.GetCompanies` | src/api/apiCompanies.js:4-14 | the listing is null exactly when the read reports an error; otherwise it is the data read, unchanged |
| `Companies.FailedListingIsNotEmptyListing` | src/api/apiCompanies.js:8-13 | a failed read and a read of an empty table give different listings |
| `Companies.Create` | src/api/apiCompanies.js:17-87 | missing logo: both stores and the call log are unchanged and `No logo file provided` is thrown. Failed upload: only the upload was issued, neither store changed, and `Storage Error: <message>` is thrown. The attempt returns if and only if the logo is present and both the upload and the insert succeed. On success, the upload then one insert were issued, exactly one row was appended with the name unchanged and the derived address, the logo is stored at (`company-logo`, key), no removal was issued, and the inserted rows are returned. Failed insert: the table is unchanged, exactly one removal of the uploaded bucket and key follows the insert, `Database Error: <message>` is thrown whatever the removal answered, and the logo is gone only if the removal succeeded |
| `Companies.CreatedRowReferencesUpload` | src/api/apiCompanies.js:59-70 | the row a successful attempt returns carries the name unchanged, and its address names the uploaded key and ends with it |
| `Companies.CompensationRestoresAssets` | src/api/apiCompanies.js:72-76 | when the insert fails and the removal succeeds, the object store is back to its state before the call, provided the key was not in use |
| `Companies.CreatePreservesConsistency` | src/api/apiCompanies.js:39-80 | if every logo object is referenced by a row and every row's logo exists, this still holds after an attempt, unless the compensating removal fails or the key was already in use |
| `Companies.FailedCompensationOrphansLogo` | src/api/apiCompanies.js:72-80 | when both the insert and the removal fail, the uploaded logo stays in the bucket with no row referencing it |
| `Companies.CompensationAfterCollisionDeletesLogo` | src/api/apiCompanies.js:29-76 | if the derived key already holds another company's logo and the store accepts the upload, a failed insert followed by a successful removal deletes that company's logo |
| `Companies.Backend.UploadObject` | src/api/apiCompanies.js:40-45 | the upload is logged; on success the object is stored at the target, and on failure the store is unchanged and the message is returned |
| `Companies.Backend.InsertRows` | src/api/apiCompanies.js:62-70 | the insert is logged; on success the rows are appended and returned, and on failure the table is unchanged and the message is returned |
| `Companies.Backend.RemoveObjects` | src/api/apiCompanies.js:74-76 | the removal is logged; on success the named objects are gone, and on failure the store is unchanged |
| `Companies.Backend.AddNewCompany` | src/api/apiCompanies.js:17-87 | the step-by-step protocol leaves the stores, the call log and the outcome exactly as `Create` specifies |

## Left out

- Creating the store client from the auth token (lines 1, 5 and 18) is not modelled. Neither are the HTTP and SDK semantics of `select`, `upload`, `insert().select()` and `remove`. Each of these calls is a store operation whose answer is an input.
- The console diagnostics (lines 9, 22, 32-37, 48-52, 56, 78, 84) are left out because they do not affect behaviour.
- `Math.random` itself is left out; only its range `[0, 90000)` is modelled. The probability of a key collision is not modelled.
- Concurrent calls racing for the same key, and `async`/`await` scheduling, are left out. The model is sequential.
- The upload options `cacheControl: '3600'` and `contentType` are not modelled. They only pass through to the store.
- The unused second parameter of `addNewCompany` is not modelled.
- Only the `name` and `logo_url` columns of a row are modelled. The columns the table fills in (such as its id) are not.
- `Companies.Backend.InsertRows` answers with exactly the rows it was sent, without those table-filled columns.
- `upload` is called without the `upsert` option. With that default the store refuses an upload onto a key that is already in use. The model does not build this refusal in: the upload's answer is an input, so it may also be `Succeeds` for a key in use. `Companies.CreatePreservesConsistency` and `Companies.CompensationRestoresAssets` assume the key is not in use, which is what the default guarantees for any upload that succeeds. `Companies.CompensationAfterCollisionDeletesLogo` describes a store configured to overwrite, and shows what the compensating removal then deletes.
- A form whose `name` is missing is not modelled. In the source, `replace` would then throw a type error; here a name is always a string.
- Only an absent logo fails validation. The check `!formData.logo` at line 25 accepts any file object, so an empty file passes it and is uploaded. The model has no notion of an empty file.
- Every failure is thrown as a plain `Error` whose only distinguishing part is its message prefix. The code never looks at the removal's answer, so a failed compensation is neither reported nor logged. `Threw(message)` carries the message, and the removal's reply is ignored.
