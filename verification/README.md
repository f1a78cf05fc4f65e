# brello-auth license backend: login decision and add-user upsert

This project is a Dafny model of the record-handling logic in a small license
server. The server keeps a list of user records
`{discordId, username, hwid, products: [{name, expiry}]}` and a `config` object.
`config` holds a version string and cached statistics. Two pieces of logic are
modelled:

- **The server's `login` endpoint.** It checks that both `discordID` and
  `hwid` are present. Then it tries to decrypt the pair, keeping the decrypted
  values only if *both* fields decrypt to non-empty strings. One endpoint can
  therefore accept the native client's encrypted fields and the website's
  plaintext fields. It looks up the first record with that Discord id and
  rejects unknown ids. It binds the HWID on first login and silently re-binds
  it when it differs. Finally it returns the user's products, with a
  far-future default for a missing expiry.
- **The `initialize` endpoint's statistics**, and the **`add-user` admin
  command**. That command creates a record with one product, or grants an
  existing user a product it lacks. It then recomputes the cached statistics.

The database is a value. Each operation takes the database it loaded and
returns the database it saves. AES decryption and base64 decoding stay
abstract: a `Codec` is a pair of functions, and decryption may fail
(`None`). Stored fields that may be missing from the JSON are `Option`
values. JavaScript truthiness of a string is `Truthy`: the value is present
and not empty.

Files:

- `records.dfy`: the stored records, the `find` by Discord id and the
  product-count `reduce`.
- `codec.dfy`: the decode-or-fallback step.
- `server.dfy`: `initialize`, product formatting and `login`.
- `add_user.dfy`: the admin command, as a specification function and as an
  imperative method that follows the command's steps.
- `lifecycle.dfy`: how a record created by the admin command behaves at its
  first login.

Three facts about the server code shape the model:

- The login response carries no session token, and the server has no load
  or destruct endpoint.
- Decoding is all-or-nothing over the pair of fields (server.js:102).
- A differing stored HWID is always overwritten (server.js:132-136).

## Model

| member | source | states |
|---|---|---|
| `Records.FindUser` | server.js:117 | The index returned is that of the first record with the Discord id; none is returned exactly when no record has it. |
| `Records.TotalProductsAppend` | add-user.js:73 | Appending a record adds that record's product count to the total. A missing list counts 0. |
| `Records.TotalProductsUpdate` | add-user.js:73 | Replacing one record changes the total by the difference of the old and new records' product counts. |
| `Codec.DecodeFields` | server.js:95-109 | Decoding is all-or-nothing. If both fields decrypt to non-empty strings, both take their decrypted values. Otherwise both keep their submitted values. Non-empty inputs give non-empty outputs. |
| `Server.Initialize` | server.js:55-66 | `user` is the number of records and `products` is the total product count. These equal the cache whenever the cache is consistent. The version is the stored one if set, else the request's, else `1.0.0`, so it is never empty. |
| `Server.FormatProducts` | server.js:140-143 | The response list has the stored order, length and names. A set expiry is kept, and a missing or empty one becomes `2099-12-31`, so no shown expiry is empty. |
| `Server.Login` | server.js:83-156 | A missing or empty field gives 400 with the database untouched. An unknown effective Discord id gives 401 with the database untouched. Otherwise only the first matching record's HWID changes, and it becomes the effective HWID. The save happens exactly when the stored HWID differed. The response carries `username` or `User`, the id, the new HWID and the formatted products. Consistent statistics stay consistent. |
| `AddUserTool.ProductNameArg` | add-user.js:23 | The product name is the third argument when present and non-empty, otherwise `Fivem Client`; it is never empty. |
| `AddUserTool.RefreshStatistics` | add-user.js:72-73 | Afterwards `statistics.user` is the record count and `statistics.products` is the total product count. Users and version are unchanged. |
| `AddUserTool.AddUserSpec` | add-user.js:13-73 | Fewer than two arguments stop the command without a write. A new id appends exactly one record at the end: empty HWID, the given username, one product expiring `2099-12-31`. A known id keeps the user count and username and leaves all other records alone. That record gains the product only if no product has that name. A record without a products list stops the command. Statistics are consistent after every write. |
| `AddUserTool.AddUser` | add-user.js:11-73 | The imperative command (push onto the products list or onto the users, then assign both statistics) writes exactly the database `AddUserSpec` describes. |
| `AddUserTool.AddUserGrants` | add-user.js:36-69 | After a successful run, the first record with the given id holds a product of the given name. |
| `AddUserTool.AddUserIdempotent` | add-user.js:36-73 | A second run with the same arguments writes the same database as the first. |
| `AddUserTool.AddUserKeepsRecords` | add-user.js:36-69 | No record is removed or reordered. The count grows by one exactly for a new id. Every existing record keeps its id, username and HWID. |
| `Lifecycle.NewRecordFirstLogin` | add-user.js:55-65 | Take a record just created by the command. Log in with its id and a HWID as plaintext, through any codec under which that pair does not decrypt. Any outcome that `Login` can produce is then a success. The login binds the HWID and saves it. The response carries the given username, the id, that HWID and exactly the granted product with expiry `2099-12-31`. |

## Left out

- AES-256-CBC decryption and base64 decoding: they are parameters (`Codec`), because the model is about the control flow around them. The fixed key and IV are not modelled.
- Loading and saving `database.json`: the database is passed in and returned, and `saved` says whether the login handler writes it. Read and write failures are not modelled, including the default database substituted when the file cannot be read and the `process.exit(1)` of the admin command on a load or save failure.
- Databases of the wrong shape (no `users`, `config` or `config.statistics`) and request fields that are not strings: these are the only ways the handlers reach their 500 responses or the `catch` at server.js:106, and the typed model cannot express them. Stored Discord ids and product names are always strings in the model.
- The admin command's use of an existing record with no products list: it is modelled as the error `ProductsMissing`, the TypeError the command dies on at add-user.js:40, and nothing is written.
- Session tokens, `load`, `destruct` and session expiry: the server code has none.
- Express routing, body parsing, logging, static files, the `/`, `/api` and `/health` endpoints, server start-up, and all console output.
- Concurrency: overlapping requests racing on `database.json` are outside a sequential model.
