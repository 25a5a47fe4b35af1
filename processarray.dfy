/** The process list of src/components/ProcessArray.tsx. Each edit is a pure function
    from the previous list to the next one; the list starts with one heating card. */
module ProcessArray {
  import opened Js
  import opened App
  import Psychroid

  /** The record a new card starts from: heating by a power of 0, no mixing fields. */
  function NewProcess(id: int): (p: Process)
    ensures p.id == id && MutatorOf(p) == Some(HeatingPower) && p.value == 0.0
    ensures p.mixDryBulb.None? && p.mixFlowRateType.None? && p.mixFlowRateValue.None?
    ensures p.mixHumidityType.None? && p.mixHumidityValue.None?
  {
    Process(id, "Heating", "Power", 0.0, None, None, None, None, None)
  }

  const InitialProcesses: seq<Process> := [NewProcess(0)]

  /** `addProcessCard`: appends a new card whose id is the old length. */
  function AddProcessCard(processes: seq<Process>): (r: seq<Process>)
    ensures |r| == |processes| + 1
    ensures r[..|processes|] == processes
    ensures r[|processes|] == NewProcess(|processes|)
  {
    processes + [NewProcess(|processes|)]
  }

  /** `updateProcess`: `map` replacing every record whose id equals the update's. */
  function UpdateProcess(processes: seq<Process>, updatedProcess: Process): (r: seq<Process>)
    ensures |r| == |processes|
    ensures forall i :: 0 <= i < |processes| && processes[i].id == updatedProcess.id ==> r[i] == updatedProcess
    ensures forall i :: 0 <= i < |processes| && processes[i].id != updatedProcess.id ==> r[i] == processes[i]
  {
    seq(|processes|, i requires 0 <= i < |processes| =>
      if processes[i].id == updatedProcess.id then updatedProcess else processes[i])
  }

  /** `handleApplyProcess`: the list handed to the application. */
  function HandleApplyProcess(processes: seq<Process>): (handed: seq<Process>)
    ensures |handed| == |processes| && forall i :: 0 <= i < |processes| ==> handed[i] == processes[i]
  {
    processes
  }

  /** Card ids are the positions in the list. */
  ghost predicate ContiguousIds(processes: seq<Process>)
  {
    forall i :: 0 <= i < |processes| ==> processes[i].id == i
  }

  lemma InitialListIsOneHeatingCard()
    ensures |InitialProcesses| == 1 && InitialProcesses[0] == Process(0, "Heating", "Power", 0.0, None, None, None, None, None)
    ensures ContiguousIds(InitialProcesses)
  {
  }

  lemma AddKeepsIdsContiguous(processes: seq<Process>)
    requires ContiguousIds(processes)
    ensures ContiguousIds(AddProcessCard(processes))
  {
  }

  /** With contiguous ids, an update whose id is in range replaces exactly the card at
      that position and keeps the ids contiguous. */
  lemma UpdateKeepsIdsContiguous(processes: seq<Process>, updatedProcess: Process)
    requires ContiguousIds(processes)
    requires 0 <= updatedProcess.id < |processes|
    ensures ContiguousIds(UpdateProcess(processes, updatedProcess))
    ensures UpdateProcess(processes, updatedProcess)[updatedProcess.id] == updatedProcess
    ensures forall i :: 0 <= i < |processes| && i != updatedProcess.id ==> UpdateProcess(processes, updatedProcess)[i] == processes[i]
  {
  }

  /** An update whose id no card carries leaves the list as it is. */
  lemma UpdateOfUnknownIdIsIdentity(processes: seq<Process>, updatedProcess: Process)
    requires forall i :: 0 <= i < |processes| ==> processes[i].id != updatedProcess.id
    ensures UpdateProcess(processes, updatedProcess) == processes
  {
  }

  /** Applying the same update twice is applying it once. */
  lemma UpdateIsIdempotent(processes: seq<Process>, updatedProcess: Process)
    ensures UpdateProcess(UpdateProcess(processes, updatedProcess), updatedProcess) == UpdateProcess(processes, updatedProcess)
  {
  }

  /** Applying a list with contiguous ids numbers the chain after the cards: the state
      each card produces carries the card's id plus one. */
  lemma AppliedCardsNumberStates<Air>(lib: Psychroid.Library<Air>, init: InitialState, processes: seq<Process>)
    requires ContiguousIds(processes)
    requires StatesEffect(lib, true, init, HandleApplyProcess(processes)).SetStates?
    ensures var states := StatesEffect(lib, true, init, HandleApplyProcess(processes)).states;
      |states| == |processes| + 1 && forall i :: 0 <= i < |processes| ==> states[i + 1].id == processes[i].id + 1
  {
    ChainShape(lib, init, HandleApplyProcess(processes));
  }

  /** One user edit of the list. */
  datatype Edit = Add | Update(updatedProcess: Process)

  /** The list after a sequence of edits, oldest first. */
  function ApplyEdits(processes: seq<Process>, edits: seq<Edit>): seq<Process>
    decreases |edits|
  {
    if edits == [] then processes
    else
      var next := match edits[0]
        case Add => AddProcessCard(processes)
        case Update(u) => UpdateProcess(processes, u);
      ApplyEdits(next, edits[1..])
  }

  /** Every update in `edits` carries the id of a card that exists when it is applied. */
  ghost predicate UpdatesInRange(processes: seq<Process>, edits: seq<Edit>)
    decreases |edits|
  {
    edits != [] ==>
      match edits[0]
      case Add => UpdatesInRange(AddProcessCard(processes), edits[1..])
      case Update(u) => 0 <= u.id < |processes| && UpdatesInRange(UpdateProcess(processes, u), edits[1..])
  }

  /** The list a user builds from the initial one keeps ids equal to positions, and
      only additions change its length. */
  lemma {:induction false} EditsKeepIdsContiguous(processes: seq<Process>, edits: seq<Edit>)
    requires ContiguousIds(processes)
    requires UpdatesInRange(processes, edits)
    ensures ContiguousIds(ApplyEdits(processes, edits))
    ensures |ApplyEdits(processes, edits)| == |processes| + AdditionCount(edits)
    decreases |edits|
  {
    if edits != [] {
      match edits[0]
      case Add =>
        AddKeepsIdsContiguous(processes);
        EditsKeepIdsContiguous(AddProcessCard(processes), edits[1..]);
      case Update(u) =>
        UpdateKeepsIdsContiguous(processes, u);
        EditsKeepIdsContiguous(UpdateProcess(processes, u), edits[1..]);
    }
  }

  /** The number of additions among `edits`. */
  function AdditionCount(edits: seq<Edit>): (n: nat)
    ensures n <= |edits|
    ensures n == 0 <==> forall i :: 0 <= i < |edits| ==> edits[i] != Add
    decreases |edits|
  {
    if edits == [] then 0 else (if edits[0] == Add then 1 else 0) + AdditionCount(edits[1..])
  }
}
