# Natural-person supplier registration, modelled in Dafny

This project models the serverless endpoint `api/save-pnatural.js` of the
IDI Foundation supplier portal. A person registering as a supplier posts a
multipart form. The handler then:

1. refuses anything but `POST` with 405;
2. keeps the first value of every form field;
3. stamps `tipo = "Persona Natural"`, `fechaRegistro` (the current time) and
   `estado = "Recibido"`;
4. checks the six required fields in order (`nombreCompleto`, `cedula`,
   `email`, `telefono`, `entidadBancaria`, `numeroCuenta`) and answers 400
   naming the first one that is missing or empty;
5. uploads the first file of every non-empty file slot to the storage
   service, in folder `portal_idi/natural/{cedula}`, with the original file
   name as public id, and answers 500 "Error al subir uno de los archivos."
   at the first failed upload;
6. stores the record, with the list of uploaded files as
   `archivosAdjuntos`, once in the collection `proveedores_naturales`;
7. mails the administrator and then the provider;
8. answers 200 with the id of the stored record. Any parse, store or mail
   failure gives the generic 500 carrying the failure's message.

Files:

- `save_pnatural.dfy` (module `SavePNatural`) holds the data model and the
  reference definition `Respond`. `Respond` is layered as `Submit`,
  `UploadAndStore` and `Persist`. The module also holds the imperative
  handler as methods: `Handler`, with the steps it calls,
  `CheckRequired`, `UploadFiles` and `StoreAndNotify`. `CheckRequired` and
  `UploadFiles` are the handler's two loops. Each method is proved to give
  the same result as its reference function.
- `save_pnatural_properties.dfy` (module `SavePNaturalProperties`) proves
  what the handler promises about replies, call order and stored records.

The form parser, clock, storage service, database and mail service are
collaborators outside the program. They are modelled as a `Services` value:

- the parse outcome;
- the timestamp;
- an upload oracle indexed by attempt number;
- a store oracle that is a function of the record;
- one outcome per mail.

The handler returns its reply together with the trace of calls it made.
The parse entry records only that the form was parsed. The entries for
uploads, the store and the mails also carry the outcome the collaborator
gave.

JavaScript truthiness of a normalised field is modelled by
`Value = Undefined | Str | Attachments`. A field is truthy when it is a
non-empty string or an attachment list. A field sent with no values at all
normalises to `undefined`.

A mail failure after the record is stored still answers 500, although the
record stays stored. A form field sent several times keeps its first value.

## Model

| member | source | states |
|---|---|---|
| SavePNatural.Normalize | api/save-pnatural.js:31-33 | Same keys as the form. A single value is kept. A list keeps its first element, and an empty list gives undefined. No field holds attachments. |
| SavePNatural.Stamp | api/save-pnatural.js:35-37 | Adds exactly `tipo`, `fechaRegistro` and `estado` with the server values, overwriting any client value. Every other field is unchanged. |
| SavePNatural.FirstMissing | api/save-pnatural.js:40-45 | None exactly when every named field is truthy. Some(i) means field i is falsy and every earlier field is truthy. |
| SavePNatural.CheckRequired | api/save-pnatural.js:40-45 | The fail-fast loop over the six required fields returns the first missing field, as FirstMissing defines it. |
| SavePNatural.FilledSlots | api/save-pnatural.js:49-53 | Indices of the slots with at least one file, strictly increasing, covering every non-empty slot. |
| SavePNatural.Plan | api/save-pnatural.js:51-54 | One entry per non-empty slot, in slot order. Each entry is the slot's first file. |
| SavePNatural.Uploads | api/save-pnatural.js:48-72 | Reference definition of the upload loop, slot by slot, stopping at the first failure. It has no contract of its own. UploadsMatchPlan and the four lemmas it combines state what it computes. |
| SavePNatural.Respond | api/save-pnatural.js:21-127 | Reference definition of the whole request. The trace is empty exactly for a method other than POST, and otherwise starts with the parse. The status is 200, 400, 405 or 500. RequestFacts, NonPostRejected, BadRequestIffMissing and HappyPath carry its properties. |
| SavePNatural.Submit | api/save-pnatural.js:39-45 | Reference definition after parsing. The reply is 400 exactly when some required field is falsy, and otherwise comes from the uploads and the store. The trace starts with the parse. MissingFieldRejected carries its properties. |
| SavePNatural.UploadAndStore | api/save-pnatural.js:47-122 | Reference definition after validation. The status is 200 or 500. UploadAndStoreFacts, StoreAfterUploads and StopAtFailedUpload carry its properties. |
| SavePNatural.Persist | api/save-pnatural.js:74-122 | Reference definition of the store and the two mails. The first call is the store of the record in `proveedores_naturales`, with at most three calls in all. The reply is 200 exactly when all three calls were made and the provider mail was sent. PersistShape carries its full shape. |
| SavePNatural.FailedIsFinal | api/save-pnatural.js:66-70 | Once an upload has failed, later slots make no further calls and change nothing. |
| SavePNatural.UploadFiles | api/save-pnatural.js:48-72 | The upload loop's calls, attachment list and failure flag equal the reference walk Uploads. |
| SavePNatural.StoreAndNotify | api/save-pnatural.js:74-122 | Storing and mailing gives the reply and calls of the reference Persist. |
| SavePNatural.Handler | api/save-pnatural.js:21-127 | The handler's reply and call trace equal the reference Respond for every method and every collaborator behaviour. |
| SavePNaturalProperties.PresentIffTruthy | api/save-pnatural.js:31-42 | A client field passes the truthiness test exactly when it was sent with a non-empty first value. |
| SavePNaturalProperties.ValidatedIffPresent | api/save-pnatural.js:31-45 | The stamped record passes validation exactly when all six required fields were sent non-empty. |
| SavePNaturalProperties.FirstFilesIsPlan | api/save-pnatural.js:51-54 | The planned files built slot by slot are exactly Plan. |
| SavePNaturalProperties.UploadsLengths | api/save-pnatural.js:51-70 | At most one call per planned file, and every planned file is called unless the walk failed. A failed walk made at least one call, and there is one attachment per successful call. |
| SavePNaturalProperties.UploadsCalls | api/save-pnatural.js:54-60 | The j-th upload call sends the j-th planned file to the folder and gets the j-th answer. |
| SavePNaturalProperties.UploadsOutcomes | api/save-pnatural.js:55-70 | An upload call failed exactly when the walk failed and it is the last call. |
| SavePNaturalProperties.UploadsAttachments | api/save-pnatural.js:61-65 | The j-th attachment records the j-th planned file's name and type and the URL of the j-th upload, which succeeded. |
| SavePNaturalProperties.UploadsMatchPlan | api/save-pnatural.js:48-72 | Upload j sends plan[j] to the cedula folder under its file name with type auto, and gets outcome j. The run fails exactly when the last call failed. Without failure every planned file is uploaded. Attachment j records plan[j]'s name, its URL and its mime type. |
| SavePNaturalProperties.UploadsAllSucceed | api/save-pnatural.js:51-72 | When every planned upload succeeds, the walk does not fail and makes one call and one attachment per planned file. |
| SavePNaturalProperties.UploadsFailAt | api/save-pnatural.js:55-70 | When the k-th planned upload is the first to fail, the walk fails after exactly k+1 calls with k attachments. |
| SavePNaturalProperties.StoredAtMostOnce | api/save-pnatural.js:77 | In a trace with the promised call order, no store follows a store. |
| SavePNaturalProperties.PersistShape | api/save-pnatural.js:77-122 | The store comes first, then the admin mail (only after a store succeeded), then the provider mail (only after the admin mail was sent). The reply is 200 with the stored id exactly when all three succeeded, and 500 with the failure's message otherwise. |
| SavePNaturalProperties.UploadAndStoreFacts | api/save-pnatural.js:48-122 | After validation the calls are in the promised order and the reply reflects them. A stored record is the validated record with `archivosAdjuntos` set to the uploaded list. |
| SavePNaturalProperties.StoreAfterUploads | api/save-pnatural.js:48-77 | With every upload succeeding, the planned uploads come first, and the store follows with one attachment per planned file. |
| SavePNaturalProperties.StopAtFailedUpload | api/save-pnatural.js:55-70 | When the k-th upload is the first to fail, the reply is the upload 500, and nothing is stored or mailed. |
| SavePNaturalProperties.NonPostRejected | api/save-pnatural.js:22-24 | The reply is 405 exactly when the method is not POST. It then carries the fixed message, and no collaborator is called. A POST always starts by parsing the form. |
| SavePNaturalProperties.MissingFieldRejected | api/save-pnatural.js:40-45 | When the i-th required field is the first one not sent, the reply is 400 naming it, and only the parse was done. |
| SavePNaturalProperties.BadRequestIffMissing | api/save-pnatural.js:22-45 | The reply is 400 exactly when a POST was parsed and some required field is missing. |
| SavePNaturalProperties.EmailOmittedRejected | api/save-pnatural.js:40-45 | A submission with name and cedula but no email is refused with 400 for `email`, after the parse alone. |
| SavePNaturalProperties.AllUploadsSucceed | api/save-pnatural.js:48-77 | With valid fields and successful uploads, every planned file goes to `portal_idi/natural/{cedula}`, and a single store follows with the stamped fields plus those attachments. |
| SavePNaturalProperties.StoredThenMailed | api/save-pnatural.js:48-122 | After validation, with every upload succeeding, the store follows the uploads. When it and both mails succeed, the trace ends with the admin mail about the submitter's name and the confirmation to the submitter's address, and the reply is 200 with the stored id. |
| SavePNaturalProperties.HappyPath | api/save-pnatural.js:48-122 | For valid fields and successful uploads, the store follows the uploads. When that store and both mails succeed, the administrator is mailed with the subject naming `nombreCompleto`, then the provider is mailed at `email`, and the reply is 200 with the stored id. |
| SavePNaturalProperties.UploadFailureStops | api/save-pnatural.js:55-70 | For a valid request, when the k-th upload is the first to fail, the reply is the upload 500 after k+1 uploads, and nothing is stored or mailed. |
| SavePNaturalProperties.RequestFacts | api/save-pnatural.js:21-127 | For every request, parse comes first, a failed upload is the last upload, at most one store happens and only after all uploads succeeded, the mails come after the store in order, and the reply's status matches the calls. |
| SavePNaturalProperties.StoredRecordFields | api/save-pnatural.js:31-74 | The stored record keeps every client field's first value, holds the server's `tipo`, `fechaRegistro` and `estado`, and has the attachment list. |
| SavePNaturalProperties.StoredRecordStamped | api/save-pnatural.js:31-77 | Whatever the client sent, a record is stored only when all six required fields were sent. It carries the server's stamps and an attachment list, and keeps the client's other fields with their first values. |

## Left out

- The multipart parser, upload service, database and mail service are collaborators, replaced by an oracle each. Their configuration (environment keys and the `bodyParser` setting) is not modelled.
- The HTML bodies of both mails are not modelled, because they are free text with no logic. Only the sender, recipients and subject are.
- `fechaRegistro` is the opaque timestamp the clock gives. The ISO-8601 format of `toISOString` is not modelled.
- Logging to the console is not modelled, because it has no effect on the reply.
- The order of file slots is taken as given. JavaScript's ordering of integer-like keys in `Object.keys` is not modelled.
- A missing `originalFilename` or `mimetype` on an uploaded file is not modelled. Both are strings here.
- A mail service that reports an error without throwing is treated as sent. Only a thrown failure (`SendFailed`) is modelled.
- The database refusing a record (for example one holding `undefined`) is modelled only through the store oracle, which may fail for any record.
- Concurrency between requests is not modelled, because each request runs on its own.
- `lib/firebaseAdmin.js` and `lib/authMiddleware.js` are not part of this model.
