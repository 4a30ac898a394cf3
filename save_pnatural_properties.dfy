/** Properties of the registration handler, stated about the reference
    definition `Respond` (which `Handler` is proved to agree with). */
module SavePNaturalProperties {
  import opened SavePNatural

  /** A field the client sent whose first value is a non-empty string. */
  predicate Present(fields: map<string, FieldValue>, name: string) {
    && name in fields
    && match fields[name]
       case Single(t) => t != ""
       case Multiple(ts) => ts != [] && ts[0] != ""
  }

  /** After normalising and stamping, a client field passes the truthiness
      test exactly when it was sent with a non-empty first value. */
  lemma PresentIffTruthy(fields: map<string, FieldValue>, now: string, name: string)
    requires !ServerOwned(name)
    ensures Truthy(Get(Stamp(Normalize(fields), now), name)) <==> Present(fields, name)
  {
  }

  // ---------------------------------------------------------------------
  // Upload loop
  // ---------------------------------------------------------------------

  /** Adding a slot at the end adds its first file to the plan, if it has one. */
  lemma {:induction false} PlanExtends(slots: seq<FileSlot>)
    requires |slots| > 0
    ensures var last := slots[|slots| - 1];
            Plan(slots) == Plan(slots[..|slots| - 1]) + (if last.files != [] then [last.files[0]] else [])
  {
    var init := slots[..|slots| - 1];
    var last := slots[|slots| - 1];
    var extra := if last.files != [] then [last.files[0]] else [];
    assert FilledSlots(slots) == FilledSlots(init) + (if last.files != [] then [|slots| - 1] else []);
    var p, q := Plan(slots), Plan(init) + extra;
    assert |p| == |q|;
    forall j | 0 <= j < |p| ensures p[j] == q[j] {
      if j < |Plan(init)| {
        assert FilledSlots(slots)[j] == FilledSlots(init)[j];
      }
    }
  }

  /** The planned files built slot by slot, in the shape of the upload walk. */
  function FirstFiles(slots: seq<FileSlot>): seq<UploadFile>
    decreases |slots|
  {
    if slots == [] then []
    else
      var last := slots[|slots| - 1];
      FirstFiles(slots[..|slots| - 1]) + (if last.files != [] then [last.files[0]] else [])
  }

  lemma {:induction false} FirstFilesIsPlan(slots: seq<FileSlot>)
    ensures FirstFiles(slots) == Plan(slots)
    decreases |slots|
  {
    if slots != [] {
      FirstFilesIsPlan(slots[..|slots| - 1]);
      PlanExtends(slots);
    }
  }

  /** Lengths of the upload walk: at most one call per planned file, every
      planned file called unless the walk failed, a failure being a call,
      and one attachment per successful call. */
  lemma {:induction false} UploadsLengths(slots: seq<FileSlot>, folder: string, upload: nat -> UploadOutcome)
    ensures var run := Uploads(slots, folder, upload);
            && |run.trace| <= |FirstFiles(slots)|
            && (!run.failed ==> |run.trace| == |FirstFiles(slots)|)
            && (run.failed ==> |run.trace| > 0)
            && |run.attachments| == (if run.failed then |run.trace| - 1 else |run.trace|)
    decreases |slots|
  {
    if slots != [] {
      UploadsLengths(slots[..|slots| - 1], folder, upload);
    }
  }

  /** The j-th upload call sends the j-th planned file to `folder` and gets
      the oracle's j-th answer. */
  lemma {:induction false} UploadsCalls(slots: seq<FileSlot>, folder: string, upload: nat -> UploadOutcome)
    ensures var run := Uploads(slots, folder, upload);
            forall j :: 0 <= j < |run.trace| && j < |FirstFiles(slots)| ==>
              run.trace[j] == Upload(RequestFor(FirstFiles(slots)[j], folder), upload(j))
    decreases |slots|
  {
    if slots != [] {
      var init := slots[..|slots| - 1];
      var last := slots[|slots| - 1];
      UploadsCalls(init, folder, upload);
      UploadsLengths(init, folder, upload);
      var prev := Uploads(init, folder, upload);
      var run := Uploads(slots, folder, upload);
      var before, after := FirstFiles(init), FirstFiles(slots);
      assert forall j :: 0 <= j < |before| ==> after[j] == before[j];
      if !prev.failed && last.files != [] {
        assert |prev.trace| == |before|;
        assert after[|prev.trace|] == last.files[0];
        assert forall j :: 0 <= j < |prev.trace| ==> run.trace[j] == prev.trace[j];
      }
    }
  }

  /** An upload call failed exactly when it is the walk's failing last call. */
  lemma {:induction false} UploadsOutcomes(slots: seq<FileSlot>, folder: string, upload: nat -> UploadOutcome)
    ensures var run := Uploads(slots, folder, upload);
            forall j :: 0 <= j < |run.trace| ==> (upload(j).UploadFailed? <==> run.failed && j == |run.trace| - 1)
    decreases |slots|
  {
    if slots != [] {
      var init := slots[..|slots| - 1];
      UploadsOutcomes(init, folder, upload);
      UploadsCalls(init, folder, upload);
      UploadsLengths(init, folder, upload);
      var prev := Uploads(init, folder, upload);
      var run := Uploads(slots, folder, upload);
      if !prev.failed && slots[|slots| - 1].files != [] {
        assert forall j :: 0 <= j < |prev.trace| ==> run.trace[j] == prev.trace[j];
        assert |run.trace| == |prev.trace| + 1;
      }
    }
  }

  /** The j-th attachment records the j-th planned file and the address the
      j-th (successful) upload returned. */
  lemma {:induction false} UploadsAttachments(slots: seq<FileSlot>, folder: string, upload: nat -> UploadOutcome)
    ensures var run := Uploads(slots, folder, upload);
            forall j :: 0 <= j < |run.attachments| && j < |FirstFiles(slots)| ==>
              upload(j).Uploaded? && run.attachments[j] == AttachmentFor(FirstFiles(slots)[j], upload(j).secureUrl)
    decreases |slots|
  {
    if slots != [] {
      var init := slots[..|slots| - 1];
      var last := slots[|slots| - 1];
      UploadsAttachments(init, folder, upload);
      UploadsLengths(init, folder, upload);
      var prev := Uploads(init, folder, upload);
      var run := Uploads(slots, folder, upload);
      var before, after := FirstFiles(init), FirstFiles(slots);
      assert forall j :: 0 <= j < |before| ==> after[j] == before[j];
      if !prev.failed && last.files != [] {
        assert |prev.attachments| == |before|;
        assert after[|prev.attachments|] == last.files[0];
        assert forall j :: 0 <= j < |prev.attachments| ==> run.attachments[j] == prev.attachments[j];
      }
    }
  }

  /** The upload walk issues the planned uploads in order, the k-th to
      the oracle's k-th answer, and stops right after the first failure; the
      attachments are those of the successful uploads, in the same order. */
  lemma UploadsMatchPlan(slots: seq<FileSlot>, folder: string, upload: nat -> UploadOutcome)
    ensures var run := Uploads(slots, folder, upload);
            var plan := Plan(slots);
            && |run.trace| <= |plan|
            && (forall j :: 0 <= j < |run.trace| ==> run.trace[j] == Upload(RequestFor(plan[j], folder), upload(j)))
            && (forall j :: 0 <= j < |run.trace| ==>
                  (upload(j).UploadFailed? <==> run.failed && j == |run.trace| - 1))
            && (run.failed ==> |run.trace| > 0)
            && (!run.failed ==> |run.trace| == |plan|)
            && |run.attachments| == (if run.failed then |run.trace| - 1 else |run.trace|)
            && (forall j :: 0 <= j < |run.attachments| ==>
                  upload(j).Uploaded? && run.attachments[j] == AttachmentFor(plan[j], upload(j).secureUrl))
  {
    UploadsLengths(slots, folder, upload);
    UploadsCalls(slots, folder, upload);
    UploadsOutcomes(slots, folder, upload);
    UploadsAttachments(slots, folder, upload);
    FirstFilesIsPlan(slots);
  }

  /** With every planned upload succeeding, the walk does not fail and
      collects one attachment per filled slot. */
  lemma UploadsAllSucceed(slots: seq<FileSlot>, folder: string, upload: nat -> UploadOutcome)
    requires forall j :: 0 <= j < |Plan(slots)| ==> upload(j).Uploaded?
    ensures var run := Uploads(slots, folder, upload);
            && !run.failed
            && |run.trace| == |run.attachments| == |Plan(slots)|
  {
    UploadsMatchPlan(slots, folder, upload);
  }

  /** When the k-th planned upload is the first to fail, the walk fails
      after exactly k + 1 uploads. */
  lemma UploadsFailAt(slots: seq<FileSlot>, folder: string, upload: nat -> UploadOutcome, k: nat)
    requires k < |Plan(slots)|
    requires upload(k).UploadFailed?
    requires forall j :: 0 <= j < k ==> upload(j).Uploaded?
    ensures var run := Uploads(slots, folder, upload);
            && run.failed
            && |run.trace| == k + 1
            && |run.attachments| == k
  {
    UploadsMatchPlan(slots, folder, upload);
    var run := Uploads(slots, folder, upload);
    assert run.failed ==> upload(|run.trace| - 1).UploadFailed?;
  }

  // ---------------------------------------------------------------------
  // Order of the calls and meaning of the reply, on any trace
  // ---------------------------------------------------------------------

  /** The calls of the upload walk: uploads only, a failure only at the end. */
  predicate UploadCalls(u: seq<Effect>) {
    forall i :: 0 <= i < |u| ==> u[i].Upload? && (u[i].uploaded.UploadFailed? ==> i == |u| - 1)
  }

  /** The calls of the store-and-notify step: the store, then the
      administrator's mail if the store succeeded, then the provider's mail
      if the administrator's went out. */
  predicate StoreCalls(p: seq<Effect>) {
    && 1 <= |p| <= 3
    && p[0].Store?
    && (forall j :: 1 <= j < |p| ==> p[j].Send?)
    && (|p| > 1 ==> p[0].stored.Stored? && p[1].notice == AdminNotice)
    && (|p| > 2 ==> p[1].sent.Sent? && p[2].notice == ProviderConfirmation)
  }

  /** The ordering promises of the handler, on a sequence of calls. */
  predicate CallOrder(t: seq<Effect>) {
    && (t != [] ==> t[0] == ParseForm)
    && (forall i :: 0 < i < |t| ==> !t[i].ParseForm?)
    && (forall i :: 0 <= i < |t| && t[i].Upload? && t[i].uploaded.UploadFailed? ==> i == |t| - 1)
    && (forall i, j :: 0 <= i < j < |t| && t[i].Store? ==> t[j].Send?)
    && (forall i, j :: 0 < j < i < |t| && t[i].Store? ==> t[j].Upload? && t[j].uploaded.Uploaded?)
    && (forall i :: 0 <= i < |t| && t[i].Send? ==>
          && 1 <= i
          && (t[i].notice == AdminNotice ==> t[i - 1].Store? && t[i - 1].stored.Stored?)
          && (t[i].notice == ProviderConfirmation ==>
                t[i - 1].Send? && t[i - 1].notice == AdminNotice && t[i - 1].sent.Sent?))
  }

  /** Parsing, then an upload walk, then (only if every upload succeeded)
      the store-and-notify calls, is a sequence in the promised order. */
  lemma CallOrderOfParts(u: seq<Effect>, p: seq<Effect>)
    requires UploadCalls(u)
    requires p != [] ==> StoreCalls(p) && forall i :: 0 <= i < |u| ==> u[i].uploaded.Uploaded?
    ensures CallOrder([ParseForm] + u + p)
    ensures var t := [ParseForm] + u + p;
            forall i :: 0 <= i < |t| && t[i].Store? ==> p != [] && t[i] == p[0]
  {
    var t := [ParseForm] + u + p;
    assert forall i :: 1 <= i <= |u| ==> t[i] == u[i - 1];
    assert forall i :: |u| < i < |t| ==> t[i] == p[i - |u| - 1];
    assert forall i :: 0 <= i < |t| && t[i].Store? ==> i == |u| + 1;
    assert forall i :: 0 <= i < |t| && t[i].Send? ==> i > |u| + 1;
  }

  /** A stored record is never stored again. */
  lemma StoredAtMostOnce(t: seq<Effect>)
    requires CallOrder(t)
    ensures forall i, j :: 0 <= i < j < |t| && t[i].Store? ==> !t[j].Store?
  {
  }

  /** What the reply says about the calls made. */
  predicate ReplyReflectsCalls(r: Reply) {
    var t := r.trace;
    && (r.response.status == 200 ==>
          && |t| >= 3
          && t[|t| - 3].Store? && t[|t| - 3].stored.Stored?
          && r.response == Success(t[|t| - 3].stored.id))
    && (forall i :: 0 <= i < |t| && t[i].Store? && t[i].stored.StoreFailed? ==>
          i == |t| - 1 && r.response == ServerError(t[i].stored.reason))
    && (forall i :: 0 <= i < |t| && t[i].Store? && t[i].stored.Stored? ==>
          && t[|t| - 1].Send?
          && (t[|t| - 1].sent.Sent? ==> r.response == Success(t[i].stored.id))
          && (t[|t| - 1].sent.SendFailed? ==> r.response == ServerError(t[|t| - 1].sent.reason)))
  }

  /** Shape of the store-and-notify calls: the store first, then the mails
      in order, each only after the previous call succeeded; the reply is
      200 with the stored id exactly when all three succeeded, and otherwise
      the generic 500 carrying the failure of the last call. */
  lemma PersistShape(record: Record, nombre: string, email: string, services: Services)
    ensures var r := Persist(record, nombre, email, services);
            var t := r.trace;
            && StoreCalls(t)
            && ReplyReflectsCalls(r)
            && t[0] == Store(Collection, record, services.store(record))
            && (|t| > 1 <==> services.store(record).Stored?)
            && (|t| > 1 ==> t[1] == Send(AdminNotice, AdminEmail(nombre), services.adminMail))
            && (|t| > 2 <==> services.store(record).Stored? && services.adminMail.Sent?)
            && (|t| > 2 ==> t[2] == Send(ProviderConfirmation, ProviderEmail(email), services.providerMail))
            && (r.response.status == 200 <==>
                  services.store(record).Stored? && services.adminMail.Sent? && services.providerMail.Sent?)
  {
  }

  /** Putting non-store calls in front of the store-and-notify calls keeps
      what the reply says about them. */
  lemma ReplyOfParts(u: seq<Effect>, tail: Reply)
    requires forall i :: 0 <= i < |u| ==> u[i].Upload?
    requires StoreCalls(tail.trace) && ReplyReflectsCalls(tail)
    ensures ReplyReflectsCalls(Reply(tail.response, [ParseForm] + u + tail.trace))
  {
    var t := [ParseForm] + u + tail.trace;
    var n := |u| + 1;
    assert forall i :: 0 <= i < |t| && t[i].Store? ==> i == n;
    assert forall i :: 0 <= i < |tail.trace| ==> t[n + i] == tail.trace[i];
  }

  // ---------------------------------------------------------------------
  // Peeling the reference definition
  // ---------------------------------------------------------------------

  lemma RespondCases(httpMethod: string, services: Services)
    ensures var r := Respond(httpMethod, services);
            && (httpMethod != PostMethod ==> r == Reply(MethodNotAllowed(), []))
            && (httpMethod == PostMethod && services.parse.ParseFailed? ==>
                  r == Reply(ServerError(services.parse.reason), [ParseForm]))
            && (httpMethod == PostMethod && services.parse.Parsed? ==>
                  r == Submit(Stamp(Normalize(services.parse.fields), services.now), services.parse.files, services))
  {
  }

  lemma SubmitCases(data: Record, slots: seq<FileSlot>, services: Services)
    requires FormOnly(data)
    ensures var m := FirstMissing(data, RequiredFields);
            && (m.Some? ==> Submit(data, slots, services) == Reply(BadRequest(RequiredFields[m.value]), [ParseForm]))
            && (m.None? ==> Validated(data) && Submit(data, slots, services) == UploadAndStore(data, slots, services))
  {
  }

  /** Calls made once validation passed: the upload walk, then (unless an
      upload failed) the store-and-notify calls. */
  lemma UploadAndStoreShape(data: Record, slots: seq<FileSlot>, services: Services)
    requires Validated(data)
    ensures var run := Uploads(slots, FolderFor(Cedula(data)), services.upload);
            var r := UploadAndStore(data, slots, services);
            && (run.failed ==> r == Reply(UploadError(), [ParseForm] + run.trace))
            && (!run.failed ==>
                  var record := data["archivosAdjuntos" := Attachments(run.attachments)];
                  var tail := Persist(record, Nombre(data), EmailAddress(data), services);
                  r == Reply(tail.response, [ParseForm] + run.trace + tail.trace))
  {
  }

  // ---------------------------------------------------------------------
  // After validation
  // ---------------------------------------------------------------------

  /** The stamped record passes the required-field loop exactly when every
      required field was sent with a non-empty first value. */
  lemma ValidatedIffPresent(fields: map<string, FieldValue>, now: string)
    ensures Validated(Stamp(Normalize(fields), now)) <==>
              forall j :: 0 <= j < |RequiredFields| ==> Present(fields, RequiredFields[j])
  {
    forall j | 0 <= j < |RequiredFields|
      ensures Truthy(Get(Stamp(Normalize(fields), now), RequiredFields[j])) <==> Present(fields, RequiredFields[j])
    {
      PresentIffTruthy(fields, now, RequiredFields[j]);
    }
  }

  /** After validation the calls are in the promised order, the reply
      reflects them, and every stored record is the validated record with
      the collected attachments. */
  lemma UploadAndStoreFacts(data: Record, slots: seq<FileSlot>, services: Services)
    requires Validated(data)
    ensures var r := UploadAndStore(data, slots, services);
            && CallOrder(r.trace)
            && ReplyReflectsCalls(r)
            && forall i :: 0 <= i < |r.trace| && r.trace[i].Store? ==>
                 && "archivosAdjuntos" in r.trace[i].record
                 && r.trace[i].record["archivosAdjuntos"].Attachments?
                 && r.trace[i].record == data["archivosAdjuntos" := r.trace[i].record["archivosAdjuntos"]]
  {
    var folder := FolderFor(Cedula(data));
    var run := Uploads(slots, folder, services.upload);
    UploadsMatchPlan(slots, folder, services.upload);
    UploadAndStoreShape(data, slots, services);
    assert UploadCalls(run.trace);
    if run.failed {
      assert [ParseForm] + run.trace == [ParseForm] + run.trace + [];
      CallOrderOfParts(run.trace, []);
    } else {
      var record := data["archivosAdjuntos" := Attachments(run.attachments)];
      var tail := Persist(record, Nombre(data), EmailAddress(data), services);
      PersistShape(record, Nombre(data), EmailAddress(data), services);
      CallOrderOfParts(run.trace, tail.trace);
      ReplyOfParts(run.trace, tail);
    }
  }

  /** With every planned upload succeeding, the planned uploads are made in
      slot order under the submitter's folder, then the record is stored
      with one attachment per filled slot. */
  lemma StoreAfterUploads(data: Record, slots: seq<FileSlot>, services: Services)
    requires Validated(data)
    requires forall j :: 0 <= j < |Plan(slots)| ==> services.upload(j).Uploaded?
    ensures var plan := Plan(slots);
            var folder := FolderFor(Cedula(data));
            var t := UploadAndStore(data, slots, services).trace;
            && |t| >= |plan| + 2
            && t[0] == ParseForm
            && (forall j :: 0 <= j < |plan| ==> t[j + 1] == Upload(RequestFor(plan[j], folder), services.upload(j)))
            && t[|plan| + 1].Store?
            && t[|plan| + 1].collection == Collection
            && var record := t[|plan| + 1].record;
               var attached := Get(record, "archivosAdjuntos");
               && record == data["archivosAdjuntos" := attached]
               && attached.Attachments?
               && |attached.entries| == |plan|
               && forall j :: 0 <= j < |plan| ==>
                    attached.entries[j] == AttachmentFor(plan[j], services.upload(j).secureUrl)
  {
    var folder := FolderFor(Cedula(data));
    UploadsMatchPlan(slots, folder, services.upload);
    UploadsAllSucceed(slots, folder, services.upload);
    UploadAndStoreShape(data, slots, services);
    var run := Uploads(slots, folder, services.upload);
    var record := data["archivosAdjuntos" := Attachments(run.attachments)];
    var tail := Persist(record, Nombre(data), EmailAddress(data), services);
    var t := [ParseForm] + run.trace + tail.trace;
    assert UploadAndStore(data, slots, services).trace == t;
    assert forall j :: 0 <= j < |run.trace| ==> t[j + 1] == run.trace[j];
    assert t[|run.trace| + 1] == tail.trace[0];
    assert tail.trace[0] == Store(Collection, record, services.store(record));
  }

  /** When the k-th planned upload is the first to fail, the reply is the
      upload error after exactly the uploads 0..k. */
  lemma StopAtFailedUpload(data: Record, slots: seq<FileSlot>, services: Services, k: nat)
    requires Validated(data)
    requires k < |Plan(slots)|
    requires services.upload(k).UploadFailed?
    requires forall j :: 0 <= j < k ==> services.upload(j).Uploaded?
    ensures var plan := Plan(slots);
            var folder := FolderFor(Cedula(data));
            var r := UploadAndStore(data, slots, services);
            && r.response == UploadError()
            && |r.trace| == k + 2
            && r.trace[0] == ParseForm
            && forall j :: 0 <= j <= k ==> r.trace[j + 1] == Upload(RequestFor(plan[j], folder), services.upload(j))
  {
    var folder := FolderFor(Cedula(data));
    UploadsMatchPlan(slots, folder, services.upload);
    UploadsFailAt(slots, folder, services.upload, k);
    UploadAndStoreShape(data, slots, services);
  }

  // ---------------------------------------------------------------------
  // The request
  // ---------------------------------------------------------------------

  /** Only POST is served: any other method gets 405 and no collaborator
      is called; a POST always starts by parsing the form. */
  lemma NonPostRejected(httpMethod: string, services: Services)
    ensures var r := Respond(httpMethod, services);
            && (r.response.status == 405 <==> httpMethod != PostMethod)
            && (httpMethod != PostMethod ==> r == Reply(MethodNotAllowed(), []))
            && (httpMethod == PostMethod ==> |r.trace| > 0 && r.trace[0] == ParseForm)
  {
    RespondCases(httpMethod, services);
    if httpMethod == PostMethod && services.parse.Parsed? {
      var data := Stamp(Normalize(services.parse.fields), services.now);
      var slots := services.parse.files;
      SubmitCases(data, slots, services);
      if FirstMissing(data, RequiredFields).None? {
        var run := Uploads(slots, FolderFor(Cedula(data)), services.upload);
        UploadAndStoreShape(data, slots, services);
        if !run.failed {
          var record := data["archivosAdjuntos" := Attachments(run.attachments)];
          PersistShape(record, Nombre(data), EmailAddress(data), services);
        }
      }
    }
  }

  /** Validation is fail-fast and ordered: when the i-th required field is
      the first one missing, the reply is 400 naming it, and nothing is
      uploaded, stored or mailed. */
  lemma MissingFieldRejected(services: Services, i: nat)
    requires services.parse.Parsed?
    requires i < |RequiredFields|
    requires forall j :: 0 <= j < i ==> Present(services.parse.fields, RequiredFields[j])
    requires !Present(services.parse.fields, RequiredFields[i])
    ensures Respond(PostMethod, services) == Reply(BadRequest(RequiredFields[i]), [ParseForm])
  {
    var data := Stamp(Normalize(services.parse.fields), services.now);
    forall j | 0 <= j <= i
      ensures Truthy(Get(data, RequiredFields[j])) <==> Present(services.parse.fields, RequiredFields[j])
    {
      PresentIffTruthy(services.parse.fields, services.now, RequiredFields[j]);
    }
    var m := FirstMissing(data, RequiredFields);
    assert m.Some?;
    assert m.value == i;
    RespondCases(PostMethod, services);
    SubmitCases(data, services.parse.files, services);
  }

  /** A 400 reply happens exactly when some required field is missing. */
  lemma BadRequestIffMissing(httpMethod: string, services: Services)
    ensures Respond(httpMethod, services).response.status == 400 <==>
              && httpMethod == PostMethod
              && services.parse.Parsed?
              && exists j :: 0 <= j < |RequiredFields| && !Present(services.parse.fields, RequiredFields[j])
  {
    RespondCases(httpMethod, services);
    if httpMethod == PostMethod && services.parse.Parsed? {
      var data := Stamp(Normalize(services.parse.fields), services.now);
      var slots := services.parse.files;
      ValidatedIffPresent(services.parse.fields, services.now);
      SubmitCases(data, slots, services);
      if FirstMissing(data, RequiredFields).None? {
        var run := Uploads(slots, FolderFor(Cedula(data)), services.upload);
        UploadAndStoreShape(data, slots, services);
        if !run.failed {
          var record := data["archivosAdjuntos" := Attachments(run.attachments)];
          PersistShape(record, Nombre(data), EmailAddress(data), services);
        }
      }
    }
  }

  /** A submission with name and cedula but no `email` is refused with a
      400 naming `email`, and nothing is uploaded or stored. */
  lemma EmailOmittedRejected(services: Services)
    requires services.parse.Parsed?
    requires "nombreCompleto" in services.parse.fields && services.parse.fields["nombreCompleto"] == Single("Ana Ruiz")
    requires "cedula" in services.parse.fields && services.parse.fields["cedula"] == Single("123")
    requires "email" !in services.parse.fields
    ensures Respond(PostMethod, services).response == BadRequest("email")
    ensures Respond(PostMethod, services).trace == [ParseForm]
  {
    var fields := services.parse.fields;
    assert RequiredFields[2] == "email";
    assert Present(fields, RequiredFields[0]) && Present(fields, RequiredFields[1]);
    assert !Present(fields, RequiredFields[2]);
    MissingFieldRejected(services, 2);
  }

  /** With valid fields and every upload succeeding, the planned uploads
      are made in slot order under `portal_idi/natural/{cedula}`, and then
      one record is stored: the stamped fields with one attachment per
      filled slot (its first file, with the URL the media store returned). */
  lemma AllUploadsSucceed(services: Services, cedula: string)
    requires services.parse.Parsed?
    requires forall j :: 0 <= j < |RequiredFields| ==> Present(services.parse.fields, RequiredFields[j])
    requires Get(Normalize(services.parse.fields), "cedula") == Str(cedula)
    requires forall j :: 0 <= j < |Plan(services.parse.files)| ==> services.upload(j).Uploaded?
    ensures var plan := Plan(services.parse.files);
            var t := Respond(PostMethod, services).trace;
            && |t| >= |plan| + 2
            && t[0] == ParseForm
            && (forall j :: 0 <= j < |plan| ==>
                  t[j + 1] == Upload(RequestFor(plan[j], FolderFor(cedula)), services.upload(j)))
            && t[|plan| + 1].Store?
            && t[|plan| + 1].collection == Collection
            && var record := t[|plan| + 1].record;
               && "archivosAdjuntos" in record
               && record == Stamp(Normalize(services.parse.fields), services.now)["archivosAdjuntos" := record["archivosAdjuntos"]]
               && record["archivosAdjuntos"].Attachments?
               && |record["archivosAdjuntos"].entries| == |plan|
               && forall j :: 0 <= j < |plan| ==>
                    record["archivosAdjuntos"].entries[j] == AttachmentFor(plan[j], services.upload(j).secureUrl)
  {
    var data := Stamp(Normalize(services.parse.fields), services.now);
    ValidatedIffPresent(services.parse.fields, services.now);
    assert Cedula(data) == cedula;
    RespondCases(PostMethod, services);
    SubmitCases(data, services.parse.files, services);
    StoreAfterUploads(data, services.parse.files, services);
  }

  /** After validation, with every upload succeeding: the store follows
      the uploads, and when it and both mails succeed the trace ends with
      the two mails and the reply is 200 with the stored id. */
  lemma StoredThenMailed(data: Record, slots: seq<FileSlot>, services: Services)
    requires Validated(data)
    requires forall j :: 0 <= j < |Plan(slots)| ==> services.upload(j).Uploaded?
    ensures var n := |Plan(slots)|;
            var r := UploadAndStore(data, slots, services);
            && |r.trace| >= n + 2
            && r.trace[n + 1].Store?
            && (r.trace[n + 1].stored.Stored? && services.adminMail.Sent? && services.providerMail.Sent? ==>
                  && |r.trace| == n + 4
                  && r.trace[n + 2] == Send(AdminNotice, AdminEmail(Nombre(data)), Sent)
                  && r.trace[n + 3] == Send(ProviderConfirmation, ProviderEmail(EmailAddress(data)), Sent)
                  && r.response == Success(r.trace[n + 1].stored.id))
  {
    var folder := FolderFor(Cedula(data));
    UploadsAllSucceed(slots, folder, services.upload);
    UploadAndStoreShape(data, slots, services);
    var run := Uploads(slots, folder, services.upload);
    var record := data["archivosAdjuntos" := Attachments(run.attachments)];
    var tail := Persist(record, Nombre(data), EmailAddress(data), services);
    PersistShape(record, Nombre(data), EmailAddress(data), services);
    var t := [ParseForm] + run.trace + tail.trace;
    assert forall j :: 0 <= j < |tail.trace| ==> t[|run.trace| + 1 + j] == tail.trace[j];
  }

  /** With valid fields and every upload succeeding, the record is stored
      right after the uploads. When that store and both mails succeed, the
      administrator is mailed about the submitter `nombre`, then the
      submitter is mailed at `email`, and the reply is 200 carrying the id
      the store assigned. */
  lemma HappyPath(services: Services, nombre: string, email: string)
    requires services.parse.Parsed?
    requires forall j :: 0 <= j < |RequiredFields| ==> Present(services.parse.fields, RequiredFields[j])
    requires Get(Normalize(services.parse.fields), "nombreCompleto") == Str(nombre)
    requires Get(Normalize(services.parse.fields), "email") == Str(email)
    requires forall j :: 0 <= j < |Plan(services.parse.files)| ==> services.upload(j).Uploaded?
    ensures var n := |Plan(services.parse.files)|;
            var r := Respond(PostMethod, services);
            && |r.trace| >= n + 2
            && r.trace[n + 1].Store?
            && (r.trace[n + 1].stored.Stored? && services.adminMail.Sent? && services.providerMail.Sent? ==>
                  && |r.trace| == n + 4
                  && r.trace[n + 2] == Send(AdminNotice, AdminEmail(nombre), Sent)
                  && r.trace[n + 3] == Send(ProviderConfirmation, ProviderEmail(email), Sent)
                  && r.response == Success(r.trace[n + 1].stored.id))
  {
    var data := Stamp(Normalize(services.parse.fields), services.now);
    ValidatedIffPresent(services.parse.fields, services.now);
    RespondCases(PostMethod, services);
    SubmitCases(data, services.parse.files, services);
    StoredThenMailed(data, services.parse.files, services);
    assert Nombre(data) == nombre && EmailAddress(data) == email;
  }

  /** When the k-th upload is the first to fail, the reply is 500 with the
      upload message; the k uploads before it stay done, none after it is
      attempted, and nothing is stored or mailed. */
  lemma UploadFailureStops(services: Services, cedula: string, k: nat)
    requires services.parse.Parsed?
    requires forall j :: 0 <= j < |RequiredFields| ==> Present(services.parse.fields, RequiredFields[j])
    requires Get(Normalize(services.parse.fields), "cedula") == Str(cedula)
    requires k < |Plan(services.parse.files)|
    requires services.upload(k).UploadFailed?
    requires forall j :: 0 <= j < k ==> services.upload(j).Uploaded?
    ensures var plan := Plan(services.parse.files);
            var r := Respond(PostMethod, services);
            && r.response == UploadError()
            && |r.trace| == k + 2
            && r.trace[0] == ParseForm
            && (forall j :: 0 <= j <= k ==>
                  r.trace[j + 1] == Upload(RequestFor(plan[j], FolderFor(cedula)), services.upload(j)))
  {
    var data := Stamp(Normalize(services.parse.fields), services.now);
    ValidatedIffPresent(services.parse.fields, services.now);
    assert Cedula(data) == cedula;
    RespondCases(PostMethod, services);
    SubmitCases(data, services.parse.files, services);
    StopAtFailedUpload(data, services.parse.files, services, k);
  }

  /** On every request the calls are in the promised order (parse, uploads,
      store only after every upload succeeded, then the administrator's and
      the provider's mail), the record is stored at most once, and the reply
      reflects the calls: 200 with the stored id only after both mails, the
      generic 500 when a mail fails even though the record stays stored. */
  lemma RequestFacts(httpMethod: string, services: Services)
    ensures var r := Respond(httpMethod, services);
            && CallOrder(r.trace)
            && (forall i, j :: 0 <= i < j < |r.trace| && r.trace[i].Store? ==> !r.trace[j].Store?)
            && ReplyReflectsCalls(r)
  {
    RespondCases(httpMethod, services);
    var r := Respond(httpMethod, services);
    if httpMethod == PostMethod && services.parse.Parsed? {
      var data := Stamp(Normalize(services.parse.fields), services.now);
      SubmitCases(data, services.parse.files, services);
      if FirstMissing(data, RequiredFields).None? {
        UploadAndStoreFacts(data, services.parse.files, services);
      }
    }
    StoredAtMostOnce(r.trace);
  }

  /** The record the handler stores: the stamped client fields with the
      attachment list written over `archivosAdjuntos`. */
  lemma StoredRecordFields(fields: map<string, FieldValue>, now: string, attachments: Value)
    requires attachments.Attachments?
    ensures var record := Stamp(Normalize(fields), now)["archivosAdjuntos" := attachments];
            && Get(record, "tipo") == Str(TipoNatural)
            && Get(record, "estado") == Str(EstadoRecibido)
            && Get(record, "fechaRegistro") == Str(now)
            && Get(record, "archivosAdjuntos") == attachments
            && forall k :: k in fields && !ServerOwned(k) && k != "archivosAdjuntos" ==>
                 Get(record, k) == Normalize(fields)[k]
  {
  }

  /** Whatever the client sent, a stored record carries the server's
      `tipo`, `estado` and `fechaRegistro`, every other client field with
      its first value, and the attachment list; and a record is stored only
      when every required field was present. */
  lemma StoredRecordStamped(httpMethod: string, services: Services)
    ensures var t := Respond(httpMethod, services).trace;
            forall i :: 0 <= i < |t| && t[i].Store? ==>
              && services.parse.Parsed?
              && (forall j :: 0 <= j < |RequiredFields| ==> Present(services.parse.fields, RequiredFields[j]))
              && Get(t[i].record, "tipo") == Str(TipoNatural)
              && Get(t[i].record, "estado") == Str(EstadoRecibido)
              && Get(t[i].record, "fechaRegistro") == Str(services.now)
              && Get(t[i].record, "archivosAdjuntos").Attachments?
              && (forall k :: k in services.parse.fields && !ServerOwned(k) && k != "archivosAdjuntos" ==>
                    Get(t[i].record, k) == Normalize(services.parse.fields)[k])
  {
    RespondCases(httpMethod, services);
    var t := Respond(httpMethod, services).trace;
    if httpMethod == PostMethod && services.parse.Parsed? {
      var fields := services.parse.fields;
      var data := Stamp(Normalize(fields), services.now);
      ValidatedIffPresent(fields, services.now);
      SubmitCases(data, services.parse.files, services);
      if FirstMissing(data, RequiredFields).None? {
        UploadAndStoreFacts(data, services.parse.files, services);
        forall i | 0 <= i < |t| && t[i].Store?
          ensures Get(t[i].record, "tipo") == Str(TipoNatural)
          ensures Get(t[i].record, "estado") == Str(EstadoRecibido)
          ensures Get(t[i].record, "fechaRegistro") == Str(services.now)
          ensures Get(t[i].record, "archivosAdjuntos").Attachments?
          ensures forall k :: k in fields && !ServerOwned(k) && k != "archivosAdjuntos" ==>
                    Get(t[i].record, k) == Normalize(fields)[k]
        {
          StoredRecordFields(fields, services.now, t[i].record["archivosAdjuntos"]);
        }
      }
    }
  }
}
