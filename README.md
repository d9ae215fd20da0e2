# Order processor: naming, derivation and store-update rules

This project models the deterministic core of the order processor's four
services, and proves properties of that model in Dafny:

- the **fulfillment bundle** that the Drive service zips (`createOrderZip`):
  the shipping label first, then every print sheet under
  `print-sheets-<orderId>/`, named by its 1-based position, and the name the
  archive is uploaded under;
- the **email zip** of print sheets (`createZipFile`) and the
  **processing notification** (`sendProcessingNotification`): sender,
  recipient, subject and body text;
- the **shipping label** (`generateShippingLabel`): the item count, the fields
  copied from the order, the file name, and the synthetic **tracking number**
  (`generateTrackingNumber`);
- the **card lookup** (`fetchCardInfo`) with its not-found error, and the
  **card artifact store** (`generateCardFile`) that writes, and overwrites,
  `cards/card_<id>.json`.

Modules follow the services: `CardProcessor` (card_processor.dfy), `Shipping`
(shipping.dfy), `Drive` (drive.dfy) and `Email` (email.dfy). `Models`
(models.dfy) holds the document shapes of the three schemas. `Common`
(common.dfy) holds results and errors, decimal rendering of numbers, and the
`String.prototype` operations the services use.

How the environment enters the model:

- File paths are relative to the service's `output/` directory: `cards/`,
  `shipping-labels/` and `temp/`.
- `Date.now()` is a `nat` parameter, rendered in decimal as JavaScript prints
  it. The tracking number reads the clock separately from the label's file
  name (services/shipping.service.js:44 and :23), so these are two
  parameters. `new Date().toISOString()` is a string parameter, both for the
  label's `generatedAt` and for the notification's processing time.
- `Math.random().toString(36)` is a string parameter.
- `process.env` values (`EMAIL_USER`, `ADMIN_EMAIL`, `GOOGLE_DRIVE_FOLDER_ID`)
  are `Option<string>` parameters, because any of them may be unset.
- `Card.findById` becomes a `CardDb`. It is either a reachable catalog (a map
  from id to card) or a failure that the service rethrows.
- The output directory's card files are an `ArtifactStore` object. Its
  `files` field is a map from path to the card record that
  `JSON.stringify(card, null, 2)` writes into that file.

## Model

| member | source | states |
|---|---|---|
| `CardProcessor.FetchCardInfo` | services/cardProcessor.service.js:6-17 | succeeds exactly when the catalog is reachable and holds the id, and then yields that card unchanged; a reachable catalog lacking the id gives the error `"Card not found: " + cardId`; a failed query (a database error, or an id that cannot be converted) is rethrown as it came |
| `CardProcessor.NotFoundOnlyWhenMissing` | services/cardProcessor.service.js:9-16 | the not-found error comes back if and only if the catalog was reachable and lacked the id (when the database's own error carries another message) |
| `CardProcessor.CardFilePathInjective` | services/cardProcessor.service.js:25-26 | the card file path depends only on the card id, and distinct ids give distinct paths |
| `CardProcessor.WriteCardFile` | services/cardProcessor.service.js:28-31 | after a write the card's path holds that card, the set of paths gains at most that one path, and every other path keeps its content |
| `CardProcessor.WriteCardFileCount` | services/cardProcessor.service.js:25-31 | a write adds one file if the card had none, and otherwise overwrites: no duplicate file appears |
| `CardProcessor.RewriteKeepsLatest` | services/cardProcessor.service.js:25-31 | writing two snapshots of the same card id leaves only the latest |
| `CardProcessor.WritesOfDistinctCardsCommute` | services/cardProcessor.service.js:25-31 | writes for cards with distinct ids touch distinct files, so they commute |
| `CardProcessor.ArtifactStore.GenerateCardFile` | services/cardProcessor.service.js:19-38 | returns `cards/card_<id>.json`, and the store afterwards is the old store with that path set to the card |
| `Shipping.TotalItems` | services/shipping.service.js:13 | the `reduce` over the line items equals the independently defined sum of their quantities, and is 0 for no items |
| `Shipping.ReduceAddsQuantitySum` | services/shipping.service.js:13 | the left fold from any starting value adds exactly the quantity sum to it |
| `Shipping.TotalItemsAppend` | services/shipping.service.js:13 | the count of a concatenation of item lists is the sum of the counts |
| `Shipping.TotalItemsCoversLines` | services/shipping.service.js:13 | when every quantity is at least 1, as the order-item schema requires, the total is at least the number of line items |
| `Shipping.GenerateTrackingNumber` | services/shipping.service.js:41-47 | the tracking number meets `TrackingNumberShape` for the decimal clock reading: `KYOSO-`, then the last min(8, n) characters of the n-digit reading, then `-`, then characters 2 to 5 of the random string (those that exist) upper-cased, character by character; it is 8 to 19 characters long |
| `Shipping.TrackingNumberShapeUnique` | services/shipping.service.js:43-46 | that layout fixes every character: at most one string meets it for a given clock reading and random string |
| `Shipping.TimestampPartIsTail` | services/shipping.service.js:44 | the timestamp part is the last min(8, n) characters of the n-digit clock reading, all digits, never empty |
| `Shipping.RandomPartShape` | services/shipping.service.js:45 | the random part is characters 2 to 5 of the random string, upper-cased (as many as exist there, so at most 4), with no lower-case letter left |
| `Shipping.TrackingNumberDeterminesParts` | services/shipping.service.js:43-46 | equal tracking numbers have equal timestamp parts and equal random parts: the number can be split back into its parts |
| `Shipping.LabelFileNamesDifferInTime` | services/shipping.service.js:23 | two label files for one order written at different clock readings have different names |
| `Shipping.GenerateShippingLabel` | services/shipping.service.js:10-35 | the label copies the order's id and shipping address, counts the sum of quantities, uses method `Standard` and package details `TBD`/`TBD`; the returned tracking number is the label's, built from the clock and random inputs; the file is `shipping-labels/shipping_label_<orderId>_<clock>.json` |
| `Drive.CreateOrderZip` | services/drive.service.js:24-53 | the bundle at `temp/<orderId>.zip` is given 1 + n entries (`archive.file` calls): the label first as `shipping_label_<orderId>.json`, then sheet i (0-based) from `printSheets[i]` as `print-sheets-<orderId>/print_sheet_<i+1>_<orderId>.json` in input order; every sheet is in the sheet directory and the label is not; all entry names are distinct |
| `Drive.SheetEntryNamesDistinct` | services/drive.service.js:45-47 | sheet entry names for distinct positions differ |
| `Drive.SheetInSheetDir` | services/drive.service.js:45-47 | every sheet entry name starts with `print-sheets-<orderId>/` |
| `Drive.LabelOutsideSheetDir` | services/drive.service.js:40-47 | the label entry name does not start with `print-sheets-<orderId>/` |
| `Drive.LabelIsNotASheet` | services/drive.service.js:40-47 | the label entry name is none of the sheet entry names |
| `Drive.ArchiveFileNameInjective` | services/drive.service.js:30 | distinct order ids give distinct bundle names |
| `Drive.UploadMetadata` | services/drive.service.js:59-62 | the bundle is uploaded under the same `<orderId>.zip` name it has in the temporary directory, into the configured folder |
| `Email.EmailArchivePath` | services/email.service.js:31 | the email zip is `temp/print_sheets_<orderId>.zip`, which is never the Drive bundle's path for the same order |
| `Email.CreateZipFile` | services/email.service.js:24-57 | the email zip is given exactly one entry (`archive.file` call) per print sheet: entry i (0-based) is `printSheets[i]` named `print_sheet_<i+1>.json`, in input order; every name starts with `print_sheet_`, so there is no label entry; names are distinct |
| `Email.EmailSheetNamesDistinct` | services/email.service.js:49-52 | email entry names for distinct positions differ |
| `Email.ProcessingNotification` | services/email.service.js:62-78 | the mail goes from `EMAIL_USER` to `ADMIN_EMAIL`; the subject is the order id, in full, between `Order ` and ` Processed` |
| `Email.NotificationFieldsInOrder` | services/email.service.js:66-77 | the body holds the order id, the tracking number, the cards-processed count and the Drive link, each in full, in that order and without overlap |
| `Common.DecimalStringInjective` | services/drive.service.js:47 | distinct numbers interpolated into a name render differently, which the distinctness of the numbered entry names rests on |
| `Models.ParseStatus` | models/processed-order.model.js:16-20 | the status field accepts exactly `completed` and `failed`, and reads back the status it was written from |
| `Models.StatusRoundTrip` | models/processed-order.model.js:16-20 | every status survives being written out and parsed back |

## Left out

- Google Drive authentication, the lazy client set-up in `init`, the upload call and the clean-up of the temporary zip (services/drive.service.js:14-22, 64-88): foreign API and file I/O. Only the upload's file metadata is modelled.
- The `archiver` streams, compression, `fs.mkdirSync`/`fs.mkdir` and the write streams (services/drive.service.js:25-37, 51; services/email.service.js:25-46, 55): only the list of entries and the output path are modelled.
- The nodemailer transport and `sendMail` (services/email.service.js:15-21, 80-86): a network client. The configuration check at lines 11-13 only logs, so it is left out.
- Writing the shipping label file (services/shipping.service.js:7-8, 26-29): file I/O. The model returns the path and the label that would be written.
- Disk errors from `fs.writeFile` in `generateCardFile` (services/cardProcessor.service.js:34-37): file I/O. The store write always succeeds in the model.
- CardProcessor.ArtifactStore.GenerateCardFile: the file content is the card record, not its JSON text, because `JSON.stringify` is not modelled.
- Common.ToUpperCase: upper-cases ASCII letters only. `Math.random().toString(36)` yields only digits, ASCII letters and `.`, so this covers every input the service produces.
- Common.DecimalString: renders non-negative integers (`nat`) only. JavaScript switches to exponent notation from 10^21 upwards, far above any clock reading or sheet index.
- Shipping.TotalItems: quantities are integers and their sum is exact. The schema only asks `type: Number, min: 1` (models/order.model.js:5), so a fractional quantity would be accepted and the `reduce` at services/shipping.service.js:13 would add floating-point numbers, rounding above 2^53; floating point is not modelled.
- Drive.CreateOrderZip and Email.CreateZipFile: the model lists the entries the services hand to `archiver`, not the finished zip. `archiver` reports a source file it cannot read through a `warning` event and leaves it out; both services listen only for `error`, so such a zip would lack that entry while the call still resolves with its path.
- Shipping.GenerateTrackingNumber: the clock is a `nat`, so a reading before 1970 (a negative `Date.now()`) is not modelled.
- Path normalisation by `path.join`: names are joined to their directory by plain concatenation. Order and card ids are MongoDB ObjectIds, which contain no separators.
- The Mongoose schemas, `findById`, `populate` and the order controller (models/*.js, controllers/order.controller.js): the schemas give the datatype shapes, and the card query becomes `CardDb`.
- The Express servers, CORS and routes (server.js, server-prod.js, routes/order.routes.js): HTTP plumbing.
- The random decoy sampler, the print-sheet builder, the print-count increment, the multi-copy order pipeline and the construction of `ProcessedOrder` records are not part of this model. No implementation of them is among the service files: `processCardWithRandoms`, called at routes/order.routes.js:28, is not defined in services/cardProcessor.service.js. Of the processed-order schema, only its status enum is modelled, in `Models`.
- The catalog's not-found case is a plain `Error` with the message `Card not found: <id>`, as the code throws it; no separate not-found error kind exists in the code.
