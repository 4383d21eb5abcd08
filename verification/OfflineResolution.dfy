/** Settling one persisted operation by hand while no server is running. */
module OfflineResolution {
  import opened Lifecycle
  import opened Text
  import opened Records
  import opened OperationStore

  datatype Refused =
    | MalformedId | BadConfirmation | ServerRunning | Unreadable | UnknownOperation | AlreadyTerminal | NotWritten

  datatype Output = Output(id: string, device: string, state: string, jobId: Option<string>,
                           fingerprint: string, details: Option<string>)

  datatype Answer = Settled(output: Output) | No(why: Refused)

  function Confirmation(id: string, d: Disposition): string {
    "RESOLVED " + id + " AS " + Word(d)
  }

  /** Confirming one disposition of one operation confirms nothing else. */
  lemma ConfirmationIsExact(id: string, d: Disposition, other: string, e: Disposition)
    requires ValidId(id) && ValidId(other)
    requires Confirmation(id, d) == Confirmation(other, e)
    ensures id == other && d == e
  {
    var c, k := Confirmation(id, d), Confirmation(other, e);
    assert c[9..73] == id && k[9..73] == other;
    assert c[77..] == Word(d) && k[77..] == Word(e);
    assert Word(d)[0] == Word(e)[0];
  }

  /** The words the operator has to give. */
  lemma ConfirmationText(id: string)
    ensures Confirmation(id, AsCommitted) == "RESOLVED " + id + " AS COMMITTED"
    ensures Confirmation(id, AsDiscarded) == "RESOLVED " + id + " AS DISCARDED"
  {
    assert " AS " + "COMMITTED" == " AS COMMITTED" && " AS " + "DISCARDED" == " AS DISCARDED";
    assert "RESOLVED " + id + " AS " + "COMMITTED" == "RESOLVED " + id + (" AS " + "COMMITTED");
    assert "RESOLVED " + id + " AS " + "DISCARDED" == "RESOLVED " + id + (" AS " + "DISCARDED");
  }

  /** What the operator's word makes of a record: finished as they say, with no lock, and with a note of
      the state it was in. */
  lemma ResolvedIs(r: Operation, d: Disposition)
    ensures var n := Resolved(r, d);
            && n == r.(state := n.state, lockHeld := false, details := n.details)
            && (d.AsCommitted? ==> n.state.Committed? && StateName(n.state) == "committed")
            && (d.AsDiscarded? ==> n.state.Discarded? && StateName(n.state) == "discarded")
            && n.details == Some("operator marked " + (if d.AsCommitted? then "COMMITTED" else "DISCARDED") + " from "
                                 + StateName(r.state) + " after external device job/candidate/lock reconciliation")
  {
  }

  class StateFile {
    /** `None`: missing or unreadable. */
    var contents: Option<Store>
    /** Some server holds the owner lock. */
    var owned: bool
    var cycleLocked: bool

    constructor (contents: Option<Store>)
      ensures this.contents == contents && !owned && !cycleLocked
    {
      this.contents, owned, cycleLocked := contents, false, false;
    }

    /** Lock, probe, read, edit, write. Succeeds exactly when everything is in order, and then
        changes that one record, to a terminal one with no lock flag; a refusal other than an
        ambiguous write changes nothing. */
    method ResolvePersistedOperation(id: string, d: Disposition, confirmation: string, io: WriteResult)
      returns (answer: Answer)
      requires !cycleLocked
      modifies this
      ensures !cycleLocked && owned == old(owned)
      ensures answer.Settled? <==>
                && ValidId(id) && confirmation == Confirmation(id, d) && !owned
                && old(contents).Some? && id in old(contents).value.operations
                && !OperationTerminal(old(contents).value.operations[id].state)
                && io.Durable?
      ensures answer.Settled? || (answer == No(NotWritten) && io.FailedNew?) ==>
                && contents.Some? && old(contents).Some? && id in old(contents).value.operations
                && contents.value == old(contents).value.(operations :=
                     old(contents).value.operations[id := Resolved(old(contents).value.operations[id], d)])
      ensures answer.Settled? ==>
                var n := contents.value.operations[id];
                answer.output == Output(n.id, n.device, StateName(n.state), n.jobId, n.current, n.details)
      ensures answer.No? && !(answer.why.NotWritten? && io.FailedNew?) ==> contents == old(contents)
    {
      if !ValidId(id) {
        return No(MalformedId);
      }
      if confirmation != Confirmation(id, d) {
        return No(BadConfirmation);
      }
      cycleLocked := true;
      if owned {
        cycleLocked := false;
        return No(ServerRunning);
      }
      if contents.None? {
        cycleLocked := false;
        return No(Unreadable);
      }
      var state := contents.value;
      if id !in state.operations {
        cycleLocked := false;
        return No(UnknownOperation);
      }
      var record := state.operations[id];
      if OperationTerminal(record.state) {
        cycleLocked := false;
        return No(AlreadyTerminal);
      }
      var previous := StateName(record.state);
      record := record.(state := if d.AsCommitted? then OperationState.Committed else OperationState.Discarded);
      record := record.(lockHeld := false);
      record := record.(details := Some("operator marked " + Word(d) + " from " + previous
                                        + " after external device job/candidate/lock reconciliation"));
      var output := Output(record.id, record.device, StateName(record.state), record.jobId, record.current,
                           record.details);
      if !io.FailedOld? {
        contents := Some(state.(operations := state.operations[id := record]));
      }
      cycleLocked := false;
      answer := if io.Durable? then Settled(output) else No(NotWritten);
    }
  }
}
