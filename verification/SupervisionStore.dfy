/** The record checks of supervision are those of the relational store. */
module SupervisionStore {
  import opened Prelude
  import opened Domain
  import opened Stores
  import opened StoreOps
  import Supervision

  /**
   In a consistent store a replacement record is taken exactly when it moves nothing back, makes a
   legal status step and is well formed: its links are those of the record it replaces.
   */
  lemma ReplacementTaken(s: StoreState, p: ManagedProcess)
    requires Consistent(s) && p.id in s.processes
    ensures ReplaceProcess(s, p).Ok? <==> Supervision.Accepts(s.processes[p.id], p)
  {
    if Supervision.Accepts(s.processes[p.id], p) {
      AcceptedIsTaken(s, p);
    } else {
      RefusedIsNotTaken(s, p);
    }
  }

  lemma AcceptedIsTaken(s: StoreState, p: ManagedProcess)
    requires ProcessesOk(s) && p.id in s.processes && Supervision.Accepts(s.processes[p.id], p)
    ensures ReplaceProcess(s, p).Ok?
  {
    LinksCarryOver(s, p);
    CheckedProcess(s, p);
  }

  lemma RefusedIsNotTaken(s: StoreState, p: ManagedProcess)
    requires p.id in s.processes && !Supervision.Accepts(s.processes[p.id], p)
    ensures ReplaceProcess(s, p).Err?
  {
    CheckedProcess(s, p);
  }

  lemma LinksCarryOver(s: StoreState, p: ManagedProcess)
    requires ProcessesOk(s) && p.id in s.processes && SameLaunch(s.processes[p.id], p)
    ensures ProcessLinksOk(s, p)
  {
    assert ProcessOk(s, s.processes[p.id]);
  }

  lemma CheckedProcess(s: StoreState, p: ManagedProcess)
    ensures CheckProcess(s, p).None? <==> ProcessOk(s, p)
  {
  }
}
