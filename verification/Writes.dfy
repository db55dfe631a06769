/**
 Every file operation of the store is one atomic write. An operation is a sequence of writes, and
 a crash leaves the disk with some prefix of it.
 */
module Writes {
  import opened Model

  datatype Write =
    | PutRegistry(registry: Registry)
    | PutRecord(record: Record)
    | DropRecord(identity: Id)
    | Seal(ref: SecretRef)
    | DropSecret(ref: SecretRef)
    | PutJournal(journal: Journal)
    | DropJournal(transaction: Id)
    | PutUpdate(update: UpdateJournal)
    | DropUpdate(revision: Id)
    | PutTransition(transition: Transition)

  function Apply(d: Disk, w: Write): Disk {
    match w
    case PutRegistry(registry) => d.(registry := registry)
    case PutRecord(record) => d.(records := d.records[record.id := record])
    case DropRecord(identity) => d.(records := d.records - {identity})
    case Seal(ref) => d.(secrets := d.secrets + {ref})
    case DropSecret(ref) => d.(secrets := d.secrets - {ref})
    case PutJournal(journal) => d.(journals := d.journals[journal.transaction := journal])
    case DropJournal(transaction) => d.(journals := d.journals - {transaction})
    case PutUpdate(update) => d.(updates := d.updates[update.revision := update])
    case DropUpdate(revision) => d.(updates := d.updates - {revision})
    case PutTransition(transition) => d.(transitions := d.transitions[transition.operation := transition])
  }

  function ApplyAll(d: Disk, ws: seq<Write>): Disk {
    if ws == [] then d else Apply(ApplyAll(d, ws[..|ws| - 1]), ws[|ws| - 1])
  }

  lemma {:induction false} ApplyAppend(d: Disk, ws: seq<Write>, more: seq<Write>)
    ensures ApplyAll(d, ws + more) == ApplyAll(ApplyAll(d, ws), more)
  {
    if more == [] {
      assert ws + more == ws;
    } else {
      var last := |more| - 1;
      assert (ws + more)[..|ws + more| - 1] == ws + more[..last];
      ApplyAppend(d, ws, more[..last]);
    }
  }

  /** One more write of a longer sequence. */
  lemma NextWrite(d: Disk, ws: seq<Write>, k: nat)
    requires k < |ws|
    ensures ApplyAll(d, ws[..k + 1]) == Apply(ApplyAll(d, ws[..k]), ws[k])
    ensures ApplyAll(d, ws[..0]) == d
  {
    assert ws[..k + 1][..k] == ws[..k];
  }

  // Runs of writes over a list of secrets

  function Seals(refs: seq<SecretRef>): (ws: seq<Write>)
    ensures |ws| == |refs|
  {
    seq(|refs|, i requires 0 <= i < |refs| => Seal(refs[i]))
  }

  function DropSecrets(refs: seq<SecretRef>): (ws: seq<Write>)
    ensures |ws| == |refs|
  {
    seq(|refs|, i requires 0 <= i < |refs| => DropSecret(refs[i]))
  }

  function RefSet(refs: seq<SecretRef>): set<SecretRef> {
    set ref | ref in refs
  }

  lemma {:induction false} ApplySeals(d: Disk, refs: seq<SecretRef>)
    ensures ApplyAll(d, Seals(refs)) == d.(secrets := d.secrets + RefSet(refs))
  {
    if refs != [] {
      var last := |refs| - 1;
      assert Seals(refs)[..last] == Seals(refs[..last]);
      ApplySeals(d, refs[..last]);
      assert refs == refs[..last] + [refs[last]];
    }
  }

  lemma {:induction false} ApplyDropSecrets(d: Disk, refs: seq<SecretRef>)
    ensures ApplyAll(d, DropSecrets(refs)) == d.(secrets := d.secrets - RefSet(refs))
  {
    if refs != [] {
      var last := |refs| - 1;
      assert DropSecrets(refs)[..last] == DropSecrets(refs[..last]);
      ApplyDropSecrets(d, refs[..last]);
      assert refs == refs[..last] + [refs[last]];
    }
  }

  /** A prefix of the drops removes some subset of the secrets and nothing else. */
  lemma ApplyDropPrefix(d: Disk, refs: seq<SecretRef>, k: nat)
    requires k <= |refs|
    ensures ApplyAll(d, DropSecrets(refs)[..k]) == d.(secrets := d.secrets - RefSet(refs[..k]))
    ensures RefSet(refs[..k]) <= RefSet(refs)
  {
    assert DropSecrets(refs)[..k] == DropSecrets(refs[..k]);
    ApplyDropSecrets(d, refs[..k]);
  }

  lemma ApplySealPrefix(d: Disk, refs: seq<SecretRef>, k: nat)
    requires k <= |refs|
    ensures ApplyAll(d, Seals(refs)[..k]) == d.(secrets := d.secrets + RefSet(refs[..k]))
    ensures RefSet(refs[..k]) <= RefSet(refs)
  {
    assert Seals(refs)[..k] == Seals(refs[..k]);
    ApplySeals(d, refs[..k]);
  }

  /** The disk after a prefix of `ws + more` is a prefix of `ws`, or all of `ws` and a prefix of `more`. */
  lemma PrefixSplit(d: Disk, ws: seq<Write>, more: seq<Write>, k: nat)
    requires k <= |ws| + |more|
    ensures k <= |ws| ==> ApplyAll(d, (ws + more)[..k]) == ApplyAll(d, ws[..k])
    ensures k > |ws| ==> ApplyAll(d, (ws + more)[..k]) == ApplyAll(ApplyAll(d, ws), more[..k - |ws|])
  {
    if k <= |ws| {
      assert (ws + more)[..k] == ws[..k];
    } else {
      assert (ws + more)[..k] == ws + more[..k - |ws|];
      ApplyAppend(d, ws, more[..k - |ws|]);
    }
  }

  /** The same for a given disk, with the boundary counted as the start of `more`. */
  lemma PrefixCut(d: Disk, ws: seq<Write>, more: seq<Write>, k: nat, part: Disk)
    requires k <= |ws + more| && part == ApplyAll(d, (ws + more)[..k])
    ensures k < |ws| ==> part == ApplyAll(d, ws[..k])
    ensures k >= |ws| ==> part == ApplyAll(ApplyAll(d, ws), more[..k - |ws|])
  {
    PrefixSplit(d, ws, more, k);
    if k == |ws| {
      assert ws[..k] == ws && more[..0] == [];
    }
  }
}
