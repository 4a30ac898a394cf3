/** Model of the natural-person supplier registration endpoint
    (api/save-pnatural.js). The multipart parser, the media store, the
    document store and the mail service are replaced by oracle values held in
    a `Services` record; the handler becomes a method that walks the required
    fields and the file slots with loops, and `Respond` is the reference
    definition it is proved to agree with. */
module SavePNatural {

  datatype Option<T> = None | Some(value: T)

  // ---------------------------------------------------------------------
  // Constants of the handler
  // ---------------------------------------------------------------------

  const PostMethod: string := "POST"
  const MethodNotAllowedMessage: string := "M\U{e9}todo no permitido. Use POST."
  const TipoNatural: string := "Persona Natural"
  const EstadoRecibido: string := "Recibido"
  /** The fixed, ordered list of fields the backend insists on. */
  const RequiredFields: seq<string> :=
    ["nombreCompleto", "cedula", "email", "telefono", "entidadBancaria", "numeroCuenta"]
  const FolderPrefix: string := "portal_idi/natural/"
  const ResourceType: string := "auto"
  const UploadErrorMessage: string := "Error al subir uno de los archivos."
  const Collection: string := "proveedores_naturales"
  const AdminAddress: string := "proyectos@fundacionidi.org"
  const AdminSender: string := "Portal IDI <onboarding@resend.dev>"
  const AdminSubjectPrefix: string := "Nuevo Proveedor Registrado: "
  const ProviderSender: string := "Fundaci\U{f3}n IDI <onboarding@resend.dev>"
  const ProviderSubject: string :=
    "Confirmaci\U{f3}n de Recepci\U{f3}n de Documentos - Fundaci\U{f3}n IDI"
  const SuccessMessage: string := "Proveedor registrado exitosamente."
  const ServerErrorMessage: string := "Ocurri\U{f3} un error en el servidor."

  // ---------------------------------------------------------------------
  // Form fields and the provider record
  // ---------------------------------------------------------------------

  /** A parsed text field: one value, or the list the parser gives for it. */
  datatype FieldValue = Single(text: string) | Multiple(texts: seq<string>)

  /** One entry of `archivosAdjuntos`. */
  datatype Attachment = Attachment(nombre: string, url: string, tipo: string)

  /** A value of the provider record: JavaScript's `undefined`, a string, or
      the attachment list stored under `archivosAdjuntos`. */
  datatype Value = Undefined | Str(s: string) | Attachments(entries: seq<Attachment>)

  type Record = map<string, Value>

  /** Property access on the record: a missing key reads as `undefined`. */
  function Get(data: Record, key: string): Value {
    if key in data then data[key] else Undefined
  }

  /** JavaScript truthiness of a record value: `undefined` and the empty
      string are falsy, every other string and every array are truthy. */
  predicate Truthy(v: Value) {
    match v
    case Undefined => false
    case Str(s) => s != ""
    case Attachments(_) => true
  }

  /** A record built from form fields only: no value is an attachment list. */
  predicate FormOnly(data: Record) {
    forall k :: k in data ==> !data[k].Attachments?
  }

  /** `Array.isArray(value) ? value[0] : value` for one field. */
  function FirstValue(v: FieldValue): Value {
    match v
    case Single(t) => Str(t)
    case Multiple(ts) => if ts == [] then Undefined else Str(ts[0])
  }

  /** Each field keeps its first value; a field given as an empty list
      becomes `undefined`. */
  function Normalize(fields: map<string, FieldValue>): (data: Record)
    ensures data.Keys == fields.Keys
    ensures forall k :: k in fields && fields[k].Single? ==> data[k] == Str(fields[k].text)
    ensures forall k :: k in fields && fields[k].Multiple? && fields[k].texts != [] ==>
              data[k] == Str(fields[k].texts[0])
    ensures forall k :: k in fields && fields[k] == Multiple([]) ==> data[k] == Undefined
    ensures FormOnly(data)
  {
    map k | k in fields :: FirstValue(fields[k])
  }

  /** The fields the server writes whatever the client sent. */
  predicate ServerOwned(key: string) {
    key == "tipo" || key == "fechaRegistro" || key == "estado"
  }

  /** Writes `tipo`, `fechaRegistro` (the server's clock reading `now`) and
      `estado`, overriding any client value under those names. */
  function Stamp(data: Record, now: string): (r: Record)
    ensures r.Keys == data.Keys + {"tipo", "fechaRegistro", "estado"}
    ensures Get(r, "tipo") == Str(TipoNatural)
    ensures Get(r, "fechaRegistro") == Str(now)
    ensures Get(r, "estado") == Str(EstadoRecibido)
    ensures forall k :: k in data && !ServerOwned(k) ==> r[k] == data[k]
    ensures FormOnly(data) ==> FormOnly(r)
  {
    data["tipo" := Str(TipoNatural)]["fechaRegistro" := Str(now)]["estado" := Str(EstadoRecibido)]
  }

  /** Index of the first name in `names` whose value is missing or falsy. */
  function FirstMissing(data: Record, names: seq<string>): (r: Option<nat>)
    ensures r.None? <==> forall j :: 0 <= j < |names| ==> Truthy(Get(data, names[j]))
    ensures r.Some? ==>
              && r.value < |names|
              && !Truthy(Get(data, names[r.value]))
              && forall j :: 0 <= j < r.value ==> Truthy(Get(data, names[j]))
  {
    if names == [] then None
    else if !Truthy(Get(data, names[0])) then Some(0)
    else
      match FirstMissing(data, names[1..])
      case None => None
      case Some(i) => Some(i + 1)
  }

  function MissingFieldMessage(field: string): string {
    "El campo '" + field + "' es obligatorio."
  }

  // ---------------------------------------------------------------------
  // Files and uploads
  // ---------------------------------------------------------------------

  datatype UploadFile = UploadFile(filepath: string, originalFilename: string, mimetype: string)

  /** One key of the parsed file mapping, with the files sent under it. */
  datatype FileSlot = FileSlot(key: string, files: seq<UploadFile>)

  /** The arguments of one call to the media store. */
  datatype UploadRequest = UploadRequest(filepath: string, folder: string, publicId: string, resourceType: string)

  datatype UploadOutcome = Uploaded(secureUrl: string) | UploadFailed(reason: string)

  function FolderFor(cedula: string): string {
    FolderPrefix + cedula
  }

  /** The media store call for a file: the object is named after the
      original filename, under the submitter's folder. */
  function RequestFor(file: UploadFile, folder: string): UploadRequest {
    UploadRequest(file.filepath, folder, file.originalFilename, ResourceType)
  }

  function AttachmentFor(file: UploadFile, url: string): Attachment {
    Attachment(file.originalFilename, url, file.mimetype)
  }

  /** Indices of the slots holding at least one file, in slot order. */
  function FilledSlots(slots: seq<FileSlot>): (r: seq<nat>)
    ensures forall j :: 0 <= j < |r| ==> r[j] < |slots| && slots[r[j]].files != []
    ensures forall i, j :: 0 <= i < j < |r| ==> r[i] < r[j]
    ensures forall i :: 0 <= i < |slots| && slots[i].files != [] ==> i in r
    decreases |slots|
  {
    if slots == [] then []
    else
      var init := FilledSlots(slots[..|slots| - 1]);
      if slots[|slots| - 1].files != [] then init + [|slots| - 1] else init
  }

  /** The file each upload is for: the first file of every filled slot.
      Its meaning comes from the contract of `FilledSlots`: one entry per
      non-empty slot, in slot order. */
  function Plan(slots: seq<FileSlot>): (p: seq<UploadFile>)
    ensures |p| == |FilledSlots(slots)|
    ensures forall j :: 0 <= j < |p| ==> p[j] == slots[FilledSlots(slots)[j]].files[0]
  {
    var idx := FilledSlots(slots);
    seq(|idx|, j requires 0 <= j < |idx| => slots[idx[j]].files[0])
  }

  // ---------------------------------------------------------------------
  // Collaborators, effects and responses
  // ---------------------------------------------------------------------

  datatype ParseOutcome =
    | Parsed(fields: map<string, FieldValue>, files: seq<FileSlot>)
    | ParseFailed(reason: string)

  datatype StoreOutcome = Stored(id: string) | StoreFailed(reason: string)

  datatype SendOutcome = Sent | SendFailed(reason: string)

  datatype Notice = AdminNotice | ProviderConfirmation

  /** The envelope of a notification; the HTML body is not modelled. */
  datatype Email = Email(from: string, to: seq<string>, subject: string)

  /** What the collaborators answer for one request. `upload(k)` is the
      answer to the k-th upload call (counting from 0); `store` answers the
      single document insertion. */
  datatype Services = Services(
    parse: ParseOutcome,
    now: string,
    upload: nat -> UploadOutcome,
    store: Record -> StoreOutcome,
    adminMail: SendOutcome,
    providerMail: SendOutcome)

  /** One call made to a collaborator, with what it answered. */
  datatype Effect =
    | ParseForm
    | Upload(request: UploadRequest, uploaded: UploadOutcome)
    | Store(collection: string, record: Record, stored: StoreOutcome)
    | Send(notice: Notice, email: Email, sent: SendOutcome)

  datatype Response = Response(status: nat, message: string, providerId: Option<string>, error: Option<string>)

  datatype Reply = Reply(response: Response, trace: seq<Effect>)

  function MethodNotAllowed(): Response {
    Response(405, MethodNotAllowedMessage, None, None)
  }

  function BadRequest(field: string): Response {
    Response(400, MissingFieldMessage(field), None, None)
  }

  function UploadError(): Response {
    Response(500, UploadErrorMessage, None, None)
  }

  /** The outer `catch`: any collaborator failure becomes a generic 500. */
  function ServerError(reason: string): Response {
    Response(500, ServerErrorMessage, None, Some(reason))
  }

  function Success(id: string): Response {
    Response(200, SuccessMessage, Some(id), None)
  }

  function AdminEmail(nombre: string): Email {
    Email(AdminSender, [AdminAddress], AdminSubjectPrefix + nombre)
  }

  function ProviderEmail(address: string): Email {
    Email(ProviderSender, [address], ProviderSubject)
  }

  // ---------------------------------------------------------------------
  // Reference definition
  // ---------------------------------------------------------------------

  /** Result of walking the file slots: the upload calls made, the
      attachments collected, and whether the walk stopped on a failure. */
  datatype UploadRun = UploadRun(trace: seq<Effect>, attachments: seq<Attachment>, failed: bool)

  /** The upload loop, slot by slot; after a failure nothing more happens. */
  function Uploads(slots: seq<FileSlot>, folder: string, upload: nat -> UploadOutcome): UploadRun
    decreases |slots|
  {
    if slots == [] then UploadRun([], [], false)
    else
      var run := Uploads(slots[..|slots| - 1], folder, upload);
      var slot := slots[|slots| - 1];
      if run.failed || slot.files == [] then run
      else
        var file := slot.files[0];
        var outcome := upload(|run.trace|);
        var trace := run.trace + [Upload(RequestFor(file, folder), outcome)];
        match outcome
        case Uploaded(url) => UploadRun(trace, run.attachments + [AttachmentFor(file, url)], false)
        case UploadFailed(_) => UploadRun(trace, run.attachments, true)
  }

  /** The whole request, as a function of the HTTP method and of the
      collaborators' answers. */
  function Respond(httpMethod: string, services: Services): (r: Reply)
    ensures r.trace == [] <==> httpMethod != PostMethod
    ensures r.trace != [] ==> r.trace[0] == ParseForm
    ensures r.response.status in {200, 400, 405, 500}
  {
    if httpMethod != PostMethod then Reply(MethodNotAllowed(), [])
    else
      match services.parse
      case ParseFailed(reason) => Reply(ServerError(reason), [ParseForm])
      case Parsed(fields, slots) => Submit(Stamp(Normalize(fields), services.now), slots, services)
  }

  /** A record the required-field loop lets through: built from form
      fields, with every required field truthy. */
  predicate Validated(data: Record) {
    && FormOnly(data)
    && forall j :: 0 <= j < |RequiredFields| ==> Truthy(Get(data, RequiredFields[j]))
  }

  /** The submitter's name, identity number and address, which the
      handler reads once validation passed. */
  function Nombre(data: Record): string
    requires Validated(data)
  {
    assert Truthy(Get(data, RequiredFields[0]));
    Get(data, "nombreCompleto").s
  }

  function Cedula(data: Record): string
    requires Validated(data)
  {
    assert Truthy(Get(data, RequiredFields[1]));
    Get(data, "cedula").s
  }

  function EmailAddress(data: Record): string
    requires Validated(data)
  {
    assert Truthy(Get(data, RequiredFields[2]));
    Get(data, "email").s
  }

  /** After parsing: the stamped record is validated, then processed. */
  function Submit(data: Record, slots: seq<FileSlot>, services: Services): (r: Reply)
    requires FormOnly(data)
    ensures r.trace != [] && r.trace[0] == ParseForm
    ensures r.response.status in {200, 400, 500}
    ensures r.response.status == 400 <==> FirstMissing(data, RequiredFields).Some?
  {
    match FirstMissing(data, RequiredFields)
    case Some(i) => Reply(BadRequest(RequiredFields[i]), [ParseForm])
    case None => UploadAndStore(data, slots, services)
  }

  /** After validation: the upload walk, then the store and the mails. */
  function UploadAndStore(data: Record, slots: seq<FileSlot>, services: Services): (r: Reply)
    requires Validated(data)
    ensures r.trace != [] && r.trace[0] == ParseForm
    ensures r.response.status in {200, 500}
  {
    var run := Uploads(slots, FolderFor(Cedula(data)), services.upload);
    if run.failed then Reply(UploadError(), [ParseForm] + run.trace)
    else
      var tail := Persist(data["archivosAdjuntos" := Attachments(run.attachments)],
                          Nombre(data), EmailAddress(data), services);
      Reply(tail.response, [ParseForm] + run.trace + tail.trace)
  }

  /** Storing the finished record and the two notifications, with the calls
      they make; `nombre` and `email` are the submitter's validated fields. */
  function Persist(record: Record, nombre: string, email: string, services: Services): (r: Reply)
    ensures 1 <= |r.trace| <= 3
    ensures r.trace[0] == Store(Collection, record, services.store(record))
    ensures r.response.status in {200, 500}
    ensures r.response.status == 200 <==> |r.trace| == 3 && services.providerMail.Sent?
  {
    var t1 := [Store(Collection, record, services.store(record))];
    match services.store(record)
    case StoreFailed(reason) => Reply(ServerError(reason), t1)
    case Stored(id) =>
      var t2 := t1 + [Send(AdminNotice, AdminEmail(nombre), services.adminMail)];
      match services.adminMail
      case SendFailed(reason) => Reply(ServerError(reason), t2)
      case Sent =>
        var t3 := t2 + [Send(ProviderConfirmation, ProviderEmail(email), services.providerMail)];
        match services.providerMail
        case SendFailed(reason) => Reply(ServerError(reason), t3)
        case Sent => Reply(Success(id), t3)
  }

  /** Once the walk over a prefix has failed, the later slots change nothing. */
  lemma {:induction false} FailedIsFinal(slots: seq<FileSlot>, n: nat, folder: string, upload: nat -> UploadOutcome)
    requires n <= |slots|
    requires Uploads(slots[..n], folder, upload).failed
    ensures Uploads(slots, folder, upload) == Uploads(slots[..n], folder, upload)
    decreases |slots|
  {
    if n < |slots| {
      var init := slots[..|slots| - 1];
      assert init[..n] == slots[..n];
      FailedIsFinal(init, n, folder, upload);
    } else {
      assert slots[..n] == slots;
    }
  }

  // ---------------------------------------------------------------------
  // The handler
  // ---------------------------------------------------------------------

  /** The required-field loop: the index of the first required field that
      is missing or falsy, if any. */
  method CheckRequired(providerData: Record) returns (missing: Option<nat>)
    ensures missing == FirstMissing(providerData, RequiredFields)
  {
    for i := 0 to |RequiredFields|
      invariant forall j :: 0 <= j < i ==> Truthy(Get(providerData, RequiredFields[j]))
    {
      if !Truthy(Get(providerData, RequiredFields[i])) {
        return Some(i);
      }
    }
    return None;
  }

  /** The upload loop: the first file of each filled slot is sent to
      `folder`; the walk stops at the first failed upload. */
  method UploadFiles(slots: seq<FileSlot>, folder: string, upload: nat -> UploadOutcome)
    returns (calls: seq<Effect>, uploaded: seq<Attachment>, failed: bool)
    ensures UploadRun(calls, uploaded, failed) == Uploads(slots, folder, upload)
  {
    calls, uploaded, failed := [], [], false;
    for i := 0 to |slots|
      invariant Uploads(slots[..i], folder, upload) == UploadRun(calls, uploaded, false)
    {
      assert slots[..i + 1][..i] == slots[..i];
      var fileArray := slots[i].files;
      if fileArray != [] {
        var file := fileArray[0];
        var outcome := upload(|calls|);
        calls := calls + [Upload(RequestFor(file, folder), outcome)];
        if outcome.UploadFailed? {
          FailedIsFinal(slots, i + 1, folder, upload);
          failed := true;
          return;
        }
        uploaded := uploaded + [AttachmentFor(file, outcome.secureUrl)];
      }
    }
    assert slots[..|slots|] == slots;
  }

  /** Stores the finished record, then notifies the administrator and the
      provider; any failure ends the request with the generic 500. */
  method StoreAndNotify(providerData: Record, nombre: string, email: string, services: Services)
    returns (response: Response, calls: seq<Effect>)
    ensures Reply(response, calls) == Persist(providerData, nombre, email, services)
  {
    var stored := services.store(providerData);
    calls := [Store(Collection, providerData, stored)];
    if stored.StoreFailed? {
      return ServerError(stored.reason), calls;
    }

    var adminSent := services.adminMail;
    calls := calls + [Send(AdminNotice, AdminEmail(nombre), adminSent)];
    if adminSent.SendFailed? {
      return ServerError(adminSent.reason), calls;
    }

    var providerSent := services.providerMail;
    calls := calls + [Send(ProviderConfirmation, ProviderEmail(email), providerSent)];
    if providerSent.SendFailed? {
      return ServerError(providerSent.reason), calls;
    }
    return Success(stored.id), calls;
  }

  /** The request handler: rejects non-POST requests, normalises and stamps
      the fields, checks the required ones in order, uploads the first file
      of every filled slot (stopping at the first failure), stores the
      record once, then sends the administrator's and the provider's mail. */
  method Handler(httpMethod: string, services: Services) returns (response: Response, trace: seq<Effect>)
    ensures Reply(response, trace) == Respond(httpMethod, services)
  {
    if httpMethod != PostMethod {
      return MethodNotAllowed(), [];
    }
    trace := [ParseForm];
    if services.parse.ParseFailed? {
      return ServerError(services.parse.reason), trace;
    }
    var fields, slots := services.parse.fields, services.parse.files;

    var providerData := Normalize(fields);
    providerData := providerData["tipo" := Str(TipoNatural)];
    providerData := providerData["fechaRegistro" := Str(services.now)];
    providerData := providerData["estado" := Str(EstadoRecibido)];
    assert providerData == Stamp(Normalize(fields), services.now);

    var missing := CheckRequired(providerData);
    if missing.Some? {
      return BadRequest(RequiredFields[missing.value]), trace;
    }
    assert Truthy(Get(providerData, RequiredFields[0])) && Truthy(Get(providerData, RequiredFields[1]))
      && Truthy(Get(providerData, RequiredFields[2]));
    var nombre := Get(providerData, "nombreCompleto").s;
    var cedula := Get(providerData, "cedula").s;
    var email := Get(providerData, "email").s;

    var calls, uploaded, failed := UploadFiles(slots, FolderFor(cedula), services.upload);
    trace := trace + calls;
    if failed {
      return UploadError(), trace;
    }

    providerData := providerData["archivosAdjuntos" := Attachments(uploaded)];
    var tailResponse, tail := StoreAndNotify(providerData, nombre, email, services);
    return tailResponse, trace + tail;
  }
}
