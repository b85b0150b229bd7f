/** The quota on attachments holds in every state, not only at the moment of an upload. */
module AttachmentQuota {
  import opened Contracts
  import opened Domain
  import opened LedgerRuns
  import opened Ledgers
  import opened Results

  /** No order has more files, or more bytes in files, than it may. */
  ghost predicate QuotaKept(attachments: seq<Attachment>) {
    forall id :: FilesOf(attachments, id) <= MAX_FILES && BytesOf(attachments, id) <= MAX_ORDER_BYTES
  }

  lemma OneMoreFile(attachments: seq<Attachment>, a: Attachment, id: Id)
    ensures FilesOf(attachments + [a], id) == FilesOf(attachments, id) + if a.orderId == id then 1 else 0
    ensures BytesOf(attachments + [a], id) == BytesOf(attachments, id) + if a.orderId == id then a.file.size else 0
  {
    assert (attachments + [a])[..|attachments|] == attachments;
  }

  lemma UploadKeepsQuota(l: Ledger, env: Env, actor: Id, orderId: Id, nodeId: Id, expected: int, file: FileData)
    requires QuotaKept(l.attachments) && PerformUpload(l, env, actor, orderId, nodeId, expected, file).Ok?
    ensures QuotaKept(PerformUpload(l, env, actor, orderId, nodeId, expected, file).value.0.attachments)
  {
    var attachments' := PerformUpload(l, env, actor, orderId, nodeId, expected, file).value.0.attachments;
    var a := attachments'[|l.attachments|];
    forall id
      ensures FilesOf(attachments', id) <= MAX_FILES && BytesOf(attachments', id) <= MAX_ORDER_BYTES
    {
      OneMoreFile(l.attachments, a, id);
    }
  }

  lemma {:induction false} InsertAllKeepsAttachments(l: Ledger, orders: seq<Order>)
    requires InsertAll(l, orders).Ok?
    ensures InsertAll(l, orders).value.attachments == l.attachments
    decreases |orders|
  {
    if orders != [] {
      InsertAllKeepsAttachments(Publish(l, orders[0].id, orders[0]), orders[1..]);
    }
  }

  lemma PerformKeepsQuota(l: Ledger, env: Env, actor: Id, key: Key, request: Request, l': Ledger, response: Response)
    requires QuotaKept(l.attachments) && Perform(l, env, actor, key, request) == Ok((l', response))
    ensures QuotaKept(l'.attachments)
  {
    if request.Upload? {
      UploadKeepsQuota(l, env, actor, request.orderId, request.nodeId, request.expectedVersion, request.file);
    } else if request.CreateBatch? {
      InsertAllKeepsAttachments(l, CreatedOrders(request.projects, l.tenant));
    } else {
      assert l'.attachments == l.attachments;
    }
  }

  lemma StepKeepsQuota(l: Ledger, s: Step, l': Ledger)
    requires QuotaKept(l.attachments) && Next(l, s, l')
    ensures QuotaKept(l'.attachments)
  {
    match s
    case Call(env, actor, key, request) =>
      if l' != l {
        var (body, response) := Perform(l, env, actor, key, request).value;
        PerformKeepsQuota(l, env, actor, key, request, body, response);
      }
    case Decision(_, _, _, _, _) => assert l'.attachments == l.attachments;
    case Skip(_) =>
  }


  /** In every state of every run each order keeps within its quota of files and bytes. */
  lemma {:induction false} QuotaNeverExceeded(run: seq<Ledger>, steps: seq<Step>, i: nat)
    requires IsRun(run, steps) && i < |run|
    ensures QuotaKept(run[i].attachments)
  {
    if i == 0 {
      assert run[0].attachments == [];
    } else {
      QuotaNeverExceeded(run, steps, i - 1);
      StepKeepsQuota(run[i - 1], steps[i - 1], run[i]);
    }
  }
}
