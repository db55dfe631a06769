/**
 A handle on one identity: it keeps a copy of the record and replaces it when an operation went
 through. Every operation reads the stored record again and refuses if its generation has moved.
 */
module Handles {
  import opened Model
  import opened Recovery
  import opened CrashAtomicity
  import opened Candidate
  import opened Adoption
  import opened Engine
  import opened StoreRuntime
  import B = DocumentBuilder

  /** The record with a revision prepared from it. */
  method ProposeRevision(base: Record, revision: Id, spec: UpdateSpec, setting: Setting) returns (r: Option<Record>)
    ensures r == Proposed(base, revision, spec, setting)
  {
    if EmptySpec(spec) || base.pending.Some? {
      return None;
    }
    var built := B.BuildCandidate(base, spec, setting);
    if built.Refused? {
      return None;
    }
    var keys := NewKeys(built.value.document, built.value, spec);
    if keys.Refused? {
      return None;
    }
    var refs := if spec.rotation.None? then [] else [SecretRef(base.id, spec.rotation.value.newKid, RequestSigning, 1)];
    var pending := Revision(revision, base.revision, built.value.document, refs, keys.value,
                            RetiredKids(built.value, spec), Prepared, 1);
    r := Some(base.(pending := Some(pending), generation := base.generation + 1));
  }

  predicate MayCommit(base: Record, revision: Id, fromReconcile: bool, evidence: Option<Evidence>, valid: bool) {
    && Awaits(base, revision)
    && var pending := base.pending.value;
    && CommitAllowed(base, pending, fromReconcile, evidence)
    && (evidence.Some? ==>
          && Verified(pending.candidate, evidence.value, valid)
          && (InitialProof(base, pending.candidate, evidence.value) || Progresses(base.checkpoint, evidence.value)))
  }

  /** The record with its revision committed: keys are retired one by one, then the candidate becomes the document. */
  method CommitRevision(base: Record, revision: Id, fromReconcile: bool, evidence: Option<Evidence>,
                        valid: bool) returns (r: Option<Record>)
    ensures r == Committed(base, revision, fromReconcile, evidence, valid)
  {
    if !MayCommit(base, revision, fromReconcile, evidence, valid) {
      return None;
    }
    var pending := base.pending.value;
    var keys := B.RetireKeys(base.keys, pending.retiredKids);
    var changed := RefreshProfiles(base.(keys := keys), pending.candidate);
    var devices := Observed(base, pending.candidate);
    if devices.None? {
      return None;
    }
    var version := if evidence.Some? then evidence.value.document else base.revision + 1;
    var registry := if evidence.Some? then evidence.value.registry else base.checkpoint.registry + 1;
    changed := changed.(retiredDevices := devices.value, keys := changed.keys + pending.newKeys,
                        document := pending.candidate);
    changed := changed.(revision := version, checkpoint := Checkpoint(version, registry, Digest(pending.candidate)));
    changed := changed.(pending := None, initialPending := false, generation := base.generation + 1);
    r := Some(changed);
  }

  class DidIdentity {
    const runtime: Runtime
    var record: Record

    constructor (runtime: Runtime, record: Record)
      ensures this.runtime == runtime && this.record == record
    {
      this.runtime, this.record := runtime, record;
    }

    /** `current_record_for_mutation`. */
    method CurrentRecord() returns (r: Option<Record>)
      ensures r == Current(runtime.Contents(), record)
    {
      var disk := runtime.Contents();
      if !CanRead(disk, record.id) {
        return None;
      }
      var stored := runtime.records[record.id];
      if stored.generation != record.generation || stored.state != Active {
        return None;
      }
      r := Some(stored);
    }

    /** `prepare_update`. */
    method PrepareUpdate(revision: Id, spec: UpdateSpec, setting: Setting) returns (ok: bool)
      modifies this, runtime
      ensures var current := Current(old(runtime.Contents()), old(record));
        var next := if current.None? then None else Proposed(current.value, revision, spec, setting);
        if next.None? then !ok && runtime.Contents() == old(runtime.Contents()) && record == old(record)
        else
          && Ran(old(runtime.Contents()), old(runtime.budget),
                 ChangeWrites(old(runtime.Contents()), Prepare(next.value)),
                 runtime.Contents(), runtime.budget, ok)
          && record == if ok then next.value else old(record)
    {
      var current := CurrentRecord();
      if current.None? {
        return false;
      }
      var next := ProposeRevision(current.value, revision, spec, setting);
      if next.None? {
        return false;
      }
      ok := runtime.PrepareUpdate(next.value);
      if ok {
        record := next.value;
      }
    }

    /** `transition_publication`. */
    method TransitionPublication(revision: Id, expected: PublicationState, next: PublicationState) returns (ok: bool)
      modifies this, runtime
      ensures var current := Current(old(runtime.Contents()), old(record));
        var moved := if current.None? then None else Moved(current.value, revision, expected, next);
        if moved.None? then !ok && runtime.Contents() == old(runtime.Contents()) && record == old(record)
        else
          && Ran(old(runtime.Contents()), old(runtime.budget),
                 ChangeWrites(old(runtime.Contents()), Persist(moved.value)),
                 runtime.Contents(), runtime.budget, ok)
          && record == if ok then moved.value else old(record)
    {
      var current := CurrentRecord();
      if current.None? || current.value.pending.None? || current.value.pending.value.id != revision {
        return false;
      }
      var changed := current.value;
      if changed.pending.value.state != expected {
        return false;
      }
      var pending := changed.pending.value.(state := next, generation := changed.pending.value.generation + 1);
      changed := changed.(pending := Some(pending));
      ok := runtime.PersistRecord(changed);
      if ok {
        record := changed.(generation := changed.generation + 1);
      }
    }

    /** `commit_pending`: keys are retired one by one, then the candidate becomes the document. */
    method CommitPending(revision: Id, fromReconcile: bool, evidence: Option<Evidence>, valid: bool) returns (ok: bool)
      modifies this, runtime
      ensures var current := Current(old(runtime.Contents()), old(record));
        var next := if current.None? then None else Committed(current.value, revision, fromReconcile, evidence, valid);
        if next.None? then !ok && runtime.Contents() == old(runtime.Contents()) && record == old(record)
        else
          && Ran(old(runtime.Contents()), old(runtime.budget),
                 ChangeWrites(old(runtime.Contents()), Persist(next.value)),
                 runtime.Contents(), runtime.budget, ok)
          && record == if ok then next.value else old(record)
    {
      var current := CurrentRecord();
      if current.None? {
        return false;
      }
      var next := CommitRevision(current.value, revision, fromReconcile, evidence, valid);
      if next.None? {
        return false;
      }
      ok := runtime.PersistRecord(next.value.(generation := current.value.generation));
      if ok {
        record := next.value;
      }
    }

    /** `abort_update`, and its variant for a revision the remote has overtaken. */
    method AbortUpdate(revision: Id, rejection: Option<(Document, Evidence, bool)>) returns (ok: bool)
      modifies this, runtime
      ensures var current := Current(old(runtime.Contents()), old(record));
        if current.None? || !Awaits(current.value, revision)
           || (rejection.None? && current.value.pending.value.state != Prepared)
           || (&& rejection.Some?
               && (|| current.value.pending.value.state != Uncertain
                   || !Superseded(current.value, rejection.value.0, rejection.value.1, rejection.value.2)))
        then !ok && runtime.Contents() == old(runtime.Contents()) && record == old(record)
        else
          && Ran(old(runtime.Contents()), old(runtime.budget),
                 ChangeWrites(old(runtime.Contents()), Cleanup(Cleared(current.value))),
                 runtime.Contents(), runtime.budget, ok)
          && record == if ok then Cleared(current.value) else old(record)
    {
      var current := CurrentRecord();
      if current.None? || !Awaits(current.value, revision) {
        return false;
      }
      var stored := current.value;
      if rejection.Some? {
        if || stored.pending.value.state != Uncertain
           || !Superseded(stored, rejection.value.0, rejection.value.1, rejection.value.2)
        {
          return false;
        }
      } else if stored.pending.value.state != Prepared {
        return false;
      }
      ok := runtime.AbortUpdate(stored.id);
      if ok {
        record := stored.(pending := None, generation := stored.generation + 1);
      }
    }
  }
}
