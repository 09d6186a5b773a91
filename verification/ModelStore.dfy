/** The owner of model.json (src/adapters/model_owner.py). */
module ModelStore {
  import opened Types
  import opened Storage
  import opened History

  /** The persisted model: the coefficient and the receipt of the last update. */
  datatype Model = Model(irK: real, lastFeedback: Option<Receipt>)

  datatype EventReceipt = EventReceipt(eventAt: int, evidenceAt: int, reason: string)

  datatype ApplyResult = Applied(fromValue: real, toValue: real) | NoChange | WriteFailed

  predicate SameEvent(m: Model, eventAt: int) {
    m.lastFeedback.Some? && m.lastFeedback.value.eventAt == eventAt
  }

  function Updated(m: Model, irK: real, receipt: Option<EventReceipt>): Model {
    Model(irK,
          if receipt.None? then m.lastFeedback
          else Some(Receipt(receipt.value.eventAt, receipt.value.evidenceAt, m.irK, irK, receipt.value.reason)))
  }

  /** The model in memory and the file it was loaded from.  They differ after a
      write that failed behind its rename. */
  datatype OwnedModel = OwnedModel(memory: Model, file: Cell<Model>)

  function Loaded(m: Model, outcomes: seq<ReplaceOutcome>): OwnedModel {
    OwnedModel(m, Cell(m, outcomes))
  }

  /** The owner of a new process on the same file. */
  function Reloaded(owned: OwnedModel, outcomes: seq<ReplaceOutcome>): OwnedModel {
    Loaded(owned.file.content, outcomes)
  }

  /** Memory and file after apply_feedback, and what it returned or raised. */
  function ApplyFeedbackTo(owned: OwnedModel, irK: Option<real>, receipt: Option<EventReceipt>)
    : (OwnedModel, ApplyResult)
  {
    var m := owned.memory;
    if receipt.Some? && SameEvent(m, receipt.value.eventAt) then (owned, NoChange)
    else if irK.None? || irK.value == m.irK then (owned, NoChange)
    else
      var next := Updated(m, irK.value, receipt);
      var file := owned.file.Replace(next);
      if NextReplace(owned.file.outcomes) != Replaced then (OwnedModel(m, file), WriteFailed)
      else (OwnedModel(next, file), Applied(m.irK, irK.value))
  }

  class ModelOwner {
    const file: ReplaceFile<Model>
    var state: Model

    ghost function State(): OwnedModel
      reads this, file
    {
      OwnedModel(state, file.State())
    }

    constructor (file: ReplaceFile<Model>)
      ensures this.file == file && State() == Loaded(file.content, file.outcomes)
    {
      this.file := file;
      state := file.content;
    }

    method ApplyFeedback(irK: Option<real>, receipt: Option<EventReceipt>) returns (result: ApplyResult)
      modifies this, file
      ensures (State(), result) == ApplyFeedbackTo(old(State()), irK, receipt)
    {
      if receipt.Some? && SameEvent(state, receipt.value.eventAt) {
        return NoChange;
      }
      var before := state.irK;
      var candidate := state;
      if irK.Some? {
        candidate := candidate.(irK := irK.value);
      }
      if candidate.irK == before {
        return NoChange;
      }
      if receipt.Some? {
        var r := receipt.value;
        candidate := candidate.(lastFeedback := Some(Receipt(r.eventAt, r.evidenceAt, before, candidate.irK,
            r.reason)));
      }
      var ok := file.Replace(candidate);
      if !ok {
        return WriteFailed;
      }
      state := file.content;
      result := Applied(before, candidate.irK);
    }
  }

  /** A call changes memory and file together, leaves both as they were, or leaves
      memory as it was and the file one update ahead of it; the last happens only
      when the replace fails behind its rename.  An update of memory and file
      carries its two coefficients in its receipt, and can not be repeated. */
  lemma MemoryAndFile(owned: OwnedModel, irK: real, receipt: EventReceipt)
    ensures var (next, result) := ApplyFeedbackTo(owned, Some(irK), Some(receipt));
            && (result.Applied? <==>
                  && !SameEvent(owned.memory, receipt.eventAt) && irK != owned.memory.irK
                  && NextReplace(owned.file.outcomes) == Replaced)
            && (result == NoChange <==> SameEvent(owned.memory, receipt.eventAt) || irK == owned.memory.irK)
            && (result == NoChange ==> next == owned)
            && (result.Applied? ==>
                  && next.memory == next.file.content && next.memory.irK == irK
                  && next.memory.lastFeedback
                     == Some(Receipt(receipt.eventAt, receipt.evidenceAt, owned.memory.irK, irK, receipt.reason))
                  && forall again :: ApplyFeedbackTo(next, Some(again), Some(receipt)) == (next, NoChange))
            && (!result.Applied? ==> next.memory == owned.memory)
            && (next.file.content != owned.file.content && !result.Applied? ==>
                  && result == WriteFailed && NextReplace(owned.file.outcomes) == ReplacedThenRaised
                  && next.file.content.lastFeedback.Some? && next.file.content.irK == irK
                  && next.file.content.lastFeedback.value.fromValue == owned.memory.irK)
  {}
}
