/**
 * The recharge web application's task store (app.py): an in-memory table
 * from task ids to `{status, message}` records, filled by the `/recarregar`
 * endpoint, settled by the background worker `run_recharge_task`, and read
 * by the `/status/<task_id>` endpoint.
 *
 * The browser automation (`fazer_recarga`, `imprimir_comprovante`) is not
 * modelled: its effect on the store is the `Outcome` given to the worker.
 * The request's JSON object is a map from keys to their text.
 */
module TaskTracker {
  import opened Ledger

  datatype Status = Pending | Completed | Failed

  /** A record of the `tasks` table. */
  datatype Task = Task(status: Status, message: string)

  /** What `fazer_recarga` did: returned true, returned false, or raised an exception with this text. */
  datatype Outcome = Recharged | Refused | Crashed(error: string)

  /** The JSON body of a `/recarregar` request. */
  type RequestData = map<string, string>

  /** The keys `recarregar` insists on. */
  const RequiredKeys: seq<string> := ["forma_pagamento", "numero_cartao", "valor"]

  const InvalidMessage := "Dados do formulário inválidos."
  const PendingMessage := "Recarga em processamento..."
  const RefusedMessage := "Falha ao processar recarga. O site pode ter retornado um erro."
  const CrashPrefix := "Erro crítico durante a automação: "
  const NotFoundMessage := "Tarefa não encontrada."
  const SuccessPrefix := "Recarga de R$"
  const SuccessMiddle := " para o cartão "
  const SuccessSuffix := " concluída com sucesso!"

  /** `form_data.get(k)` as an f-string renders it: the value, or `None` when the key is absent. */
  function Field(data: RequestData, k: string): string
  {
    if k in data then data[k] else "None"
  }

  /** `all(k in data for k in keys)`. */
  function AllPresent(keys: seq<string>, data: RequestData): (b: bool)
    ensures b <==> forall i :: 0 <= i < |keys| ==> keys[i] in data
  {
    if keys == [] then true
    else keys[0] in data && AllPresent(keys[1..], data)
  }

  /** `s` holds `part` starting at index `at`. */
  predicate HoldsAt(s: string, part: string, at: nat)
  {
    at + |part| <= |s| && s[at..at + |part|] == part
  }

  /**
   * The message of a recharge that went through: the amount after a fixed
   * prefix, then the card number after a fixed middle, then a fixed suffix,
   * each exactly where that reading puts it.
   */
  function SuccessMessage(valor: string, cartao: string): (m: string)
    ensures HoldsAt(m, SuccessPrefix, 0)
    ensures HoldsAt(m, valor, |SuccessPrefix|)
    ensures HoldsAt(m, SuccessMiddle, |SuccessPrefix| + |valor|)
    ensures HoldsAt(m, cartao, |SuccessPrefix| + |valor| + |SuccessMiddle|)
    ensures HoldsAt(m, SuccessSuffix, |SuccessPrefix| + |valor| + |SuccessMiddle| + |cartao|)
    ensures |m| == |SuccessPrefix| + |valor| + |SuccessMiddle| + |cartao| + |SuccessSuffix|
  {
    var a := SuccessPrefix + valor;
    var b := a + SuccessMiddle;
    var c := b + cartao;
    assert a[|SuccessPrefix|..] == valor;
    assert c[|b|..] == cartao;
    c + SuccessSuffix
  }

  /**
   * The record the worker leaves behind. A recharge that went through is
   * `completed`, with the success message for the amount and the card
   * number; a refused one is `failed` with a fixed message; a crash is
   * `failed` with the exception's text after a fixed prefix. Printing the
   * receipt or appending to the ledger cannot change the record: their
   * exceptions are caught before it is written.
   */
  function Finished(data: RequestData, outcome: Outcome): (t: Task)
    ensures t.status != Pending
    ensures t.status == Completed <==> outcome.Recharged?
    ensures outcome.Recharged? ==> t.message == SuccessMessage(Field(data, "valor"), Field(data, "numero_cartao"))
    ensures outcome.Refused? ==> t.message == RefusedMessage
    ensures outcome.Crashed? ==> HoldsAt(t.message, CrashPrefix, 0) && t.message[|CrashPrefix|..] == outcome.error
  {
    match outcome
    case Recharged => Task(Completed, SuccessMessage(Field(data, "valor"), Field(data, "numero_cartao")))
    case Refused => Task(Failed, RefusedMessage)
    case Crashed(e) => Task(Failed, CrashPrefix + e)
  }

  /** The reply of `/recarregar`: 400 with `success: false`, or 202 with `success: true` and the new id. */
  datatype StartReply =
    | Invalid(message: string)
    | Started(taskId: string)
  {
    function Code(): int
    {
      if Invalid? then 400 else 202
    }

    predicate Succeeded()
    {
      Started?
    }
  }

  /** The reply of `/status/<task_id>`: the HTTP code and the record sent back. */
  datatype StatusReply = StatusReply(code: int, task: Task)

  /**
   * `status(task_id)`: the stored record, sent as it is with code 200, or a
   * `failed` not-found record with code 404 when the id is unknown.
   */
  function Lookup(tasks: map<string, Task>, taskId: string): (r: StatusReply)
    ensures r.code == 200 || r.code == 404
    ensures r.code == 200 <==> taskId in tasks
    ensures taskId in tasks ==> r.task == tasks[taskId]
    ensures taskId !in tasks ==> r.task == Task(Failed, NotFoundMessage)
  {
    if taskId in tasks then StatusReply(200, tasks[taskId])
    else StatusReply(404, Task(Failed, NotFoundMessage))
  }

  /** A worker thread started by `recarregar`, with its task id and the request data. */
  datatype Job = Job(taskId: string, data: RequestData)

  /** Some worker still to run was started for `taskId`. */
  predicate HasJob(jobs: seq<Job>, taskId: string)
  {
    exists i :: 0 <= i < |jobs| && jobs[i].taskId == taskId
  }

  /**
   * The store's invariant, with `jobs` the workers started and not yet run:
   * each task has at most one such worker, a task with a worker still holds
   * the `pending` record `recarregar` wrote, and every `pending` task has its
   * worker. So a `completed` or `failed` record has no worker left that
   * could write it again.
   */
  ghost predicate StoreInvariant(tasks: map<string, Task>, jobs: seq<Job>)
  {
    && (forall i, k :: 0 <= i < k < |jobs| ==> jobs[i].taskId != jobs[k].taskId)
    && (forall i :: 0 <= i < |jobs| ==> jobs[i].taskId in tasks && tasks[jobs[i].taskId] == Task(Pending, PendingMessage))
    && (forall id :: id in tasks && tasks[id].status == Pending ==> HasJob(jobs, id))
  }

  /** The module-level `tasks` table, with the worker threads started and not yet run. */
  class TaskStore {
    var tasks: map<string, Task>
    var jobs: seq<Job>

    ghost predicate Valid()
      reads this
    {
      StoreInvariant(tasks, jobs)
    }

    constructor ()
      ensures Valid()
      ensures tasks == map[] && jobs == []
    {
      tasks := map[];
      jobs := [];
    }

    /** What `/status/<task_id>` answers in the current state. */
    function Status(taskId: string): (r: StatusReply)
      reads this
      ensures r.code == 200 <==> taskId in tasks
      ensures taskId in tasks ==> r.task == tasks[taskId]
      ensures taskId !in tasks ==> r == StatusReply(404, Task(Failed, NotFoundMessage))
    {
      Lookup(tasks, taskId)
    }

    /**
     * `recarregar()`: a request lacking one of the required keys is refused
     * and changes nothing; otherwise `freshId` (the new uuid4, which no
     * record uses yet) gets a `pending` record and a worker is started for
     * it. No other record changes.
     */
    method Recarregar(data: RequestData, freshId: string) returns (reply: StartReply)
      requires Valid() && freshId !in tasks
      modifies this
      ensures Valid()
      ensures !AllPresent(RequiredKeys, data) ==>
                && reply == Invalid(InvalidMessage)
                && tasks == old(tasks) && jobs == old(jobs)
      ensures AllPresent(RequiredKeys, data) ==>
                && reply == Started(freshId)
                && tasks == old(tasks)[freshId := Task(Pending, PendingMessage)]
                && jobs == old(jobs) + [Job(freshId, data)]
      ensures forall id :: id in old(tasks) ==> id in tasks && tasks[id] == old(tasks)[id]
    {
      if !AllPresent(RequiredKeys, data) {
        return Invalid(InvalidMessage);
      }
      var queued := jobs + [Job(freshId, data)];
      forall id | HasJob(jobs, id)
        ensures HasJob(queued, id)
      {
        var i :| 0 <= i < |jobs| && jobs[i].taskId == id;
        assert queued[i] == jobs[i];
      }
      assert queued[|jobs|].taskId == freshId;
      tasks := tasks[freshId := Task(Pending, PendingMessage)];
      jobs := queued;
      reply := Started(freshId);
    }

    /**
     * `run_recharge_task(task_id, driver, form_data)` for the worker
     * `jobs[j]`, once `fazer_recarga` has given `outcome`. After a recharge
     * that went through with PIX the record is appended to the local ledger
     * (unless that raises, which leaves the ledger as it was); then the
     * task's `pending` record, and only it, is overwritten with the finished
     * record, and the worker is gone. Records already settled stay as they are.
     */
    method RunRechargeTask(j: nat, outcome: Outcome, ledgerRaises: bool, ledger: LedgerFile)
      returns (ledgerAttempted: bool)
      requires Valid() && j < |jobs| && ledger.Valid()
      modifies this, ledger
      ensures Valid() && ledger.Valid()
      ensures old(tasks[jobs[j].taskId]) == Task(Pending, PendingMessage)
      ensures tasks == old(tasks)[old(jobs[j].taskId) := Finished(old(jobs[j].data), outcome)]
      ensures jobs == old(jobs[..j] + jobs[j + 1..])
      ensures forall id :: id in old(tasks) && old(tasks)[id].status != Pending ==> id in tasks && tasks[id] == old(tasks)[id]
      ensures ledgerAttempted <==> outcome.Recharged? && Field(old(jobs[j].data), "forma_pagamento") == "PIX"
      ensures ledgerAttempted && !ledgerRaises ==>
                && ledger.present
                && ledger.content == old(ledger.content)
                                     + EncodeRecord(Field(old(jobs[j].data), "nome_pagador"), Field(old(jobs[j].data), "valor"),
                                                    Field(old(jobs[j].data), "numero_cartao"))
      ensures !(ledgerAttempted && !ledgerRaises) ==> ledger.present == old(ledger.present) && ledger.content == old(ledger.content)
    {
      var taskId := jobs[j].taskId;
      var data := jobs[j].data;
      var formaPagamento := Field(data, "forma_pagamento");
      var nomePagador := Field(data, "nome_pagador");
      var numeroCartao := Field(data, "numero_cartao");
      var valor := Field(data, "valor");
      ledgerAttempted := false;
      if outcome.Recharged? {
        if formaPagamento == "PIX" {
          ledgerAttempted := true;
          if !ledgerRaises {
            ledger.AppendRecord(nomePagador, valor, numeroCartao);
          }
        }
      }
      RemoveJobKeepsInvariant(tasks, jobs, j, Finished(data, outcome));
      tasks := tasks[taskId := Finished(data, outcome)];
      jobs := jobs[..j] + jobs[j + 1..];
    }

    /**
     * One valid request from start to end: `/recarregar` answers 202 with
     * the new id, `/status` then answers the `pending` record, and once the
     * request's worker has run `/status` answers 200 with the finished
     * record; every other id answers exactly as before throughout.
     */
    method StartAndSettle(data: RequestData, freshId: string, outcome: Outcome, ledgerRaises: bool, ledger: LedgerFile)
      returns (reply: StartReply, during: StatusReply, after: StatusReply)
      requires Valid() && freshId !in tasks && ledger.Valid() && AllPresent(RequiredKeys, data)
      modifies this, ledger
      ensures Valid() && jobs == old(jobs)
      ensures reply == Started(freshId) && reply.Code() == 202
      ensures during == StatusReply(200, Task(Pending, PendingMessage))
      ensures after == StatusReply(200, Finished(data, outcome)) && after.task.status in {Completed, Failed}
      ensures forall id :: id != freshId ==> Status(id) == old(Status(id))
    {
      reply := Recarregar(data, freshId);
      during := Status(freshId);
      var j := |jobs| - 1;
      var _ := RunRechargeTask(j, outcome, ledgerRaises, ledger);
      after := Status(freshId);
      assert jobs == old(jobs);
    }
  }

  /** Removing a queued worker and settling its task keeps the invariant. */
  lemma RemoveJobKeepsInvariant(tasks: map<string, Task>, jobs: seq<Job>, j: nat, t: Task)
    requires StoreInvariant(tasks, jobs) && j < |jobs| && t.status != Pending
    ensures StoreInvariant(tasks[jobs[j].taskId := t], jobs[..j] + jobs[j + 1..])
  {
    var id := jobs[j].taskId;
    var rest := jobs[..j] + jobs[j + 1..];
    var after := tasks[id := t];
    forall i | 0 <= i < |rest|
      ensures rest[i] == jobs[if i < j then i else i + 1]
    {
    }
    forall other | other in after && after[other].status == Pending
      ensures HasJob(rest, other)
    {
      var i :| 0 <= i < |jobs| && jobs[i].taskId == other;
      assert i != j;
      assert rest[if i < j then i else i - 1].taskId == other;
    }
  }

  /** A worker still to run finds its task answering 200 with the `pending` record. */
  lemma QueuedTaskIsPending(tasks: map<string, Task>, jobs: seq<Job>, j: nat)
    requires StoreInvariant(tasks, jobs) && j < |jobs|
    ensures Lookup(tasks, jobs[j].taskId) == StatusReply(200, Task(Pending, PendingMessage))
  {
  }

  /** A `completed` or `failed` task has no worker left: nothing can write its record again. */
  lemma SettledTaskHasNoJob(tasks: map<string, Task>, jobs: seq<Job>, taskId: string)
    requires StoreInvariant(tasks, jobs) && taskId in tasks && tasks[taskId].status != Pending
    ensures !HasJob(jobs, taskId)
  {
  }

  /**
   * A request lacking any of `forma_pagamento`, `numero_cartao` or `valor`
   * is refused, whatever else it holds.
   */
  lemma {:induction false} MissingKeyIsRefused(data: RequestData, k: string)
    requires k in RequiredKeys && k !in data
    ensures !AllPresent(RequiredKeys, data)
  {
    var i :| 0 <= i < |RequiredKeys| && RequiredKeys[i] == k;
    assert RequiredKeys[i] !in data;
  }
}
