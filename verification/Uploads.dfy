/** The presigned-upload protocol of one document: its row, the validation jobs
    that may run any number of times, the object store that joins no
    transaction, and clients that may write their upload object at any time.
    Every step is one indivisible action; a run is any sequence of them. */
module Uploads {
  import opened Definitions

  /** Upload keys are presigned for clients; file keys only jobs write. */
  datatype Key = NoKey | UploadKey(n: nat) | FileKey(f: nat)

  datatype Status = NoFile | Pending | Ready | Refused

  datatype Doc = Doc(key: Key, status: Status, contentType: string, prev: Key, prevType: string)

  type Bytes = nat

  /** The type sniffed from the content, if it is allowed. */
  type Sniffer = Bytes -> Option<string>

  /** Where one attempt of a validation job for an upload key stands. */
  datatype Attempt =
    | Started(key: Key)
    | Fetched(key: Key, bytes: Bytes)
    | Copied(key: Key, file: Key, bytes: Bytes)
    | Unused(key: Key, file: Key)
    | FinishFailed(key: Key, file: Key)
    | Unreferenced(key: Key, file: Key)
    | NotAllowed(key: Key)
    | Rejecting(key: Key)
    | Cleaning(key: Key)
    | Deleting(key: Key)
  {
    predicate OwnsFile() { Copied? || Unused? || FinishFailed? || Unreferenced? }

    /** The file the attempt holds is its own and nobody else's. */
    predicate Keeps() { Copied? || Unused? }
  }

  datatype State = State(
    doc: Option<Doc>, objects: map<Key, Bytes>, inspected: map<Key, Bytes>,
    jobs: set<Key>, deletions: set<Key>, attempts: map<nat, Attempt>, nextFile: nat)

  /** How a transaction ends: it lands, it does not, or it lands although the
      caller is told it did not. */
  datatype Commit = Committed | Failed | Ambiguous
  {
    predicate Lands() { !Failed? }
  }

  datatype Step =
    | Put(n: nat, bytes: Bytes)
    | Confirm(n: nat, stale: bool)
    | DeleteDocument
    | Begin(a: nat, key: Key)
    | Download(a: nat)
    | Judge(a: nat)
    | Copy(a: nat, ok: bool)
    | DropUpload(a: nat)
    | Accept(a: nat, commit: Commit)
    | CheckCopy(a: nat)
    | DropCopy(a: nat)
    | Reject(a: nat, commit: Commit)
    | LookAtRow(a: nat)
    | DropObject(a: nat)
    | GiveUp(a: nat, deleted: bool)
    | Crash(a: nat)
    | RunDeletion(key: Key)

  // ---------------------------------------------------------------- the verdicts

  predicate Waits(doc: Option<Doc>, key: Key) { doc.Some? && doc.value.status.Pending? && doc.value.key == key }

  /** An accepted upload moves the row to its validated copy. */
  function Accepted(file: Key, contentType: string): Doc { Doc(file, Ready, contentType, NoKey, "") }

  /** A rejected upload puts the previous file back, if the row holds one. */
  function Rejected(before: Doc): Doc {
    if before.prev != NoKey then Doc(before.prev, Ready, before.prevType, NoKey, "")
    else Doc(before.key, Refused, "", NoKey, "")
  }

  /** What a confirm makes of the row; a pending upload is taken over only when
      it is stale. */
  function Confirmed(before: Doc, key: Key, stale: bool): Doc {
    if before.status.Pending? && !stale then before
    else if before.status.Ready? then Doc(key, Pending, "", before.key, before.contentType)
    else if before.status.Pending? then Doc(key, Pending, "", before.prev, before.prevType)
    else Doc(key, Pending, "", NoKey, "")
  }

  /** The file a download serves. */
  function Served(doc: Option<Doc>): Option<(Key, string)> {
    if doc.None? then None
    else match doc.value.status
      case Ready => Some((doc.value.key, doc.value.contentType))
      case Pending => if doc.value.prev != NoKey then Some((doc.value.prev, doc.value.prevType)) else None
      case _ => None
  }

  // ------------------------------------------------------------------- the steps

  function With(s: State, a: nat, at: Attempt): State { s.(attempts := s.attempts[a := at]) }

  function Over(s: State, a: nat): State { s.(attempts := s.attempts - {a}) }

  function Next(sniff: Sniffer, s: State, step: Step): State {
    match step
    case Put(n, bytes) => s.(objects := s.objects[UploadKey(n) := bytes])
    case Confirm(n, stale) =>
      if s.doc.None? || (s.doc.value.status.Pending? && !stale) then s
      else s.(doc := Some(Confirmed(s.doc.value, UploadKey(n), stale)), jobs := s.jobs + {UploadKey(n)})
    case DeleteDocument => s.(doc := None)
    case Begin(a, key) => if key in s.jobs && a !in s.attempts then With(s, a, Started(key)) else s
    case RunDeletion(key) => if key in s.deletions then s.(objects := s.objects - {key}) else s
    case _ => if step.a in s.attempts then Attempted(sniff, s, step, s.attempts[step.a]) else s
  }

  /** The row moves to the accepted file, and the file it replaces is queued for
      deletion, in one transaction. */
  function Accepting(s: State, file: Key, contentType: string): State
    requires s.doc.Some?
  {
    s.(doc := Some(Accepted(file, contentType)),
       deletions := s.deletions + (if s.doc.value.prev != NoKey then {s.doc.value.prev} else {}))
  }

  /** A step of attempt `step.a`, which stands at `at`. */
  function Attempted(sniff: Sniffer, s: State, step: Step, at: Attempt): State
    requires !step.Put? && !step.Confirm? && !step.DeleteDocument? && !step.Begin? && !step.RunDeletion?
  {
    var a := step.a;
    match step
    case Download(_) =>
      if !at.Started? then s
      else if at.key in s.objects then With(s, a, Fetched(at.key, s.objects[at.key]))
      else With(s, a, Rejecting(at.key))
    case Judge(_) => if at.Fetched? && sniff(at.bytes).None? then With(s, a, NotAllowed(at.key)) else s
    case Copy(_, ok) =>
      if !at.Fetched? || sniff(at.bytes).None? then s
      else
        var file := FileKey(s.nextFile);
        var s2 := s.(objects := s.objects[file := at.bytes], inspected := s.inspected[file := at.bytes],
                     nextFile := s.nextFile + 1);
        if ok then With(s2, a, Copied(at.key, file, at.bytes)) else Over(s2, a)
    case DropUpload(_) => if at.NotAllowed? then With(s.(objects := s.objects - {at.key}), a, Rejecting(at.key)) else s
    case Accept(_, commit) =>
      if !at.Copied? then s
      else
        var lands := commit.Lands() && Waits(s.doc, at.key) && sniff(at.bytes).Some?;
        var s2 := if lands then Accepting(s, at.file, sniff(at.bytes).value) else s;
        With(s2, a, if !commit.Committed? then FinishFailed(at.key, at.file)
                    else if lands then Cleaning(at.key) else Unused(at.key, at.file))
    case CheckCopy(_) =>
      if !at.FinishFailed? then s
      else if s.doc.Some? && s.doc.value.key == at.file then Over(s, a)
      else With(s, a, Unreferenced(at.key, at.file))
    case DropCopy(_) =>
      if at.Unused? then With(s.(objects := s.objects - {at.file}), a, Cleaning(at.key))
      else if at.Unreferenced? then Over(s.(objects := s.objects - {at.file}), a)
      else s
    case Reject(_, commit) =>
      if !at.Rejecting? then s
      else
        var s2 := if commit.Lands() && Waits(s.doc, at.key) then s.(doc := Some(Rejected(s.doc.value))) else s;
        if commit.Committed? then With(s2, a, Cleaning(at.key)) else Over(s2, a)
    case LookAtRow(_) =>
      if !at.Cleaning? then s
      else if Waits(s.doc, at.key) then Over(s, a)
      else With(s, a, Deleting(at.key))
    case DropObject(_) => if at.Deleting? then Over(s.(objects := s.objects - {at.key}), a) else s
    case GiveUp(_, deleted) =>
      With(if deleted then s.(objects := s.objects - {at.key}) else s, a, Rejecting(at.key))
    case Crash(_) => Over(s, a)
  }

  function Run(sniff: Sniffer, s: State, steps: seq<Step>): State {
    if steps == [] then s else Next(sniff, Run(sniff, s, steps[..|steps| - 1]), steps[|steps| - 1])
  }

  // --------------------------------------------------------------- the invariant

  /** `key` names a file key handed out before. */
  predicate IsFile(s: State, key: Key) { key.FileKey? && key.f < s.nextFile }

  /** The object at `key` holds exactly what some job inspected and allowed. */
  predicate Vetted(sniff: Sniffer, s: State, key: Key, contentType: string) {
    && IsFile(s, key) && key in s.objects && key in s.inspected && s.objects[key] == s.inspected[key]
    && sniff(s.inspected[key]) == Some(contentType)
  }

  /** The row serves only vetted files that nothing is about to delete. */
  predicate RowSafe(sniff: Sniffer, s: State) {
    && (s.doc.Some? ==>
          var d := s.doc.value;
          && (d.status.Pending? || d.status.Refused? ==> d.key.UploadKey?)
          && (!d.status.Pending? ==> d.prev == NoKey)
          && (d.status.NoFile? ==> d.key == NoKey))
    && (Served(s.doc).Some? ==>
          var (key, contentType) := Served(s.doc).value;
          Vetted(sniff, s, key, contentType) && key !in s.deletions)
  }

  /** A copy an attempt still holds is held by no other attempt. Until its finish
      reported an error it is unnamed and not queued for deletion; once the row
      was seen not to need it, it stays unnamed. */
  predicate AttemptSafe(s: State, a: nat)
    requires a in s.attempts
  {
    var at := s.attempts[a];
    && at.key.UploadKey?
    && (at.OwnsFile() ==>
          && IsFile(s, at.file)
          && (at.Keeps() ==> at.file !in s.deletions)
          && (!at.FinishFailed? && Served(s.doc).Some? ==> Served(s.doc).value.0 != at.file)
          && (forall b :: b in s.attempts && b != a && s.attempts[b].OwnsFile() ==> s.attempts[b].file != at.file))
    && (at.Copied? ==>
          && at.file in s.objects && at.file in s.inspected
          && s.objects[at.file] == at.bytes == s.inspected[at.file])
  }

  ghost predicate Safe(sniff: Sniffer, s: State) {
    && RowSafe(sniff, s)
    && (forall k :: k in s.jobs ==> k.UploadKey?)
    && (forall k :: k in s.deletions ==> IsFile(s, k))
    && (forall a :: a in s.attempts ==> AttemptSafe(s, a))
  }

  /** A document without a file, before anything happened. */
  const FRESH := State(Some(Doc(NoKey, NoFile, "", NoKey, "")), map[], map[], {}, {}, map[], 0)

  lemma FreshIsSafe(sniff: Sniffer)
    ensures Safe(sniff, FRESH)
  {
  }

  // ---------------------------------------------------------- every step keeps it

  /** An attempt that holds no copy may stand anywhere. */
  lemma Moved(sniff: Sniffer, s: State, a: nat, at: Attempt)
    requires Safe(sniff, s) && a in s.attempts && at.key.UploadKey? && !at.OwnsFile()
    ensures Safe(sniff, With(s, a, at)) && Safe(sniff, Over(s, a))
  {
    forall b | b in With(s, a, at).attempts
      ensures AttemptSafe(With(s, a, at), b)
    {
      if b != a { assert AttemptSafe(s, b); }
    }
    forall b | b in Over(s, a).attempts ensures AttemptSafe(Over(s, a), b) { assert AttemptSafe(s, b); }
  }

  /** Deleting an object nobody serves or holds is safe. */
  lemma Dropped(sniff: Sniffer, s: State, key: Key)
    requires Safe(sniff, s) && (Served(s.doc).Some? ==> Served(s.doc).value.0 != key)
    requires forall a :: a in s.attempts && s.attempts[a].Copied? ==> s.attempts[a].file != key
    ensures Safe(sniff, s.(objects := s.objects - {key}))
  {
    var s2 := s.(objects := s.objects - {key});
    forall a | a in s2.attempts ensures AttemptSafe(s2, a) { assert AttemptSafe(s, a); }
  }

  lemma UploadDropped(sniff: Sniffer, s: State, key: Key)
    requires Safe(sniff, s) && key.UploadKey?
    ensures Safe(sniff, s.(objects := s.objects - {key}))
  {
    forall a | a in s.attempts && s.attempts[a].Copied? ensures s.attempts[a].file != key { assert AttemptSafe(s, a); }
    Dropped(sniff, s, key);
  }

  /** A row that names no file it did not name before stays safe. */
  lemma RowMoved(sniff: Sniffer, s: State, doc: Option<Doc>)
    requires Safe(sniff, s) && (Served(doc).Some? ==> Served(doc) == Served(s.doc))
    requires doc.Some? ==>
      && (doc.value.status.Pending? || doc.value.status.Refused? ==> doc.value.key.UploadKey?)
      && (!doc.value.status.Pending? ==> doc.value.prev == NoKey)
      && (doc.value.status.NoFile? ==> doc.value.key == NoKey)
    ensures Safe(sniff, s.(doc := doc))
  {
    var s2 := s.(doc := doc);
    forall a | a in s2.attempts ensures AttemptSafe(s2, a) { assert AttemptSafe(s, a); }
  }

  lemma ConfirmKeeps(sniff: Sniffer, s: State, n: nat, stale: bool)
    requires Safe(sniff, s)
    ensures Safe(sniff, Next(sniff, s, Confirm(n, stale)))
    ensures Served(Next(sniff, s, Confirm(n, stale)).doc) == Served(s.doc)
  {
    if s.doc.Some? && !(s.doc.value.status.Pending? && !stale) {
      var doc := Some(Confirmed(s.doc.value, UploadKey(n), stale));
      assert Served(doc) == Served(s.doc);
      RowMoved(sniff, s, doc);
      var s1 := s.(doc := doc);
      var s2 := s1.(jobs := s1.jobs + {UploadKey(n)});
      forall a | a in s2.attempts ensures AttemptSafe(s2, a) { assert AttemptSafe(s1, a); }
    }
  }

  lemma CopyKeeps(sniff: Sniffer, s: State, a: nat, ok: bool)
    requires Safe(sniff, s) && a in s.attempts && s.attempts[a].Fetched? && sniff(s.attempts[a].bytes).Some?
    ensures Safe(sniff, Next(sniff, s, Copy(a, ok)))
  {
    var s2 := Next(sniff, s, Copy(a, ok));
    var file := FileKey(s.nextFile);
    forall b | b in s2.attempts ensures AttemptSafe(s2, b) {
      if b in s.attempts { assert AttemptSafe(s, b); }
      forall x | x in s.attempts && s.attempts[x].OwnsFile()
        ensures s.attempts[x].file != file
      {
        assert AttemptSafe(s, x);
      }
      assert AttemptSafe(s, a);
    }
  }

  /** Accepting moves the row to the copy the attempt held, and only then queues
      the file it replaces for deletion, whatever the job is told. */
  lemma AcceptKeeps(sniff: Sniffer, s: State, a: nat, commit: Commit)
    requires Safe(sniff, s) && a in s.attempts && s.attempts[a].Copied?
    ensures Safe(sniff, Next(sniff, s, Accept(a, commit)))
  {
    var at, s2 := s.attempts[a], Next(sniff, s, Accept(a, commit));
    assert AttemptSafe(s, a);
    forall b | b in s2.attempts ensures AttemptSafe(s2, b) { assert AttemptSafe(s, b); }
  }

  lemma DropCopyKeeps(sniff: Sniffer, s: State, a: nat)
    requires Safe(sniff, s) && a in s.attempts && (s.attempts[a].Unused? || s.attempts[a].Unreferenced?)
    ensures Safe(sniff, Next(sniff, s, DropCopy(a)))
  {
    var at := s.attempts[a];
    assert AttemptSafe(s, a);
    forall b | b in s.attempts && s.attempts[b].Copied?
      ensures s.attempts[b].file != at.file
    {
      assert AttemptSafe(s, b);
    }
    Dropped(sniff, s, at.file);
    Moved(sniff, s.(objects := s.objects - {at.file}), a, Cleaning(at.key));
  }

  /** An attempt that goes on holding the same copy. */
  lemma Holding(sniff: Sniffer, s: State, a: nat, at: Attempt)
    requires Safe(sniff, s) && a in s.attempts && s.attempts[a].OwnsFile() && at.Unreferenced?
    requires at.key == s.attempts[a].key && at.file == s.attempts[a].file
    requires Served(s.doc).Some? ==> Served(s.doc).value.0 != at.file
    ensures Safe(sniff, With(s, a, at))
  {
    forall b | b in With(s, a, at).attempts ensures AttemptSafe(With(s, a, at), b) {
      assert AttemptSafe(s, b);
      assert AttemptSafe(s, a);
    }
  }

  lemma RejectKeeps(sniff: Sniffer, s: State, a: nat, commit: Commit)
    requires Safe(sniff, s) && a in s.attempts && s.attempts[a].Rejecting?
    ensures Safe(sniff, Next(sniff, s, Reject(a, commit)))
    ensures Served(Next(sniff, s, Reject(a, commit)).doc) == Served(s.doc)
  {
    var at := s.attempts[a];
    assert AttemptSafe(s, a);
    Moved(sniff, s, a, Cleaning(at.key));
    if commit.Lands() && Waits(s.doc, at.key) {
      RowMoved(sniff, s, Some(Rejected(s.doc.value)));
      Moved(sniff, s.(doc := Some(Rejected(s.doc.value))), a, Cleaning(at.key));
    }
  }

  /** The check before a copy is deleted looks at the row's current file only:
      this one looks away from a copy the row holds as its previous file. */
  predicate Blind(s: State, step: Step) {
    && step.CheckCopy? && step.a in s.attempts && s.attempts[step.a].FinishFailed?
    && s.doc.Some? && s.doc.value.key != s.attempts[step.a].file
    && s.doc.value.status.Pending? && s.doc.value.prev == s.attempts[step.a].file
  }

  /** A step of an attempt that copies, accepts or rejects nothing. */
  lemma AttemptKeeps(sniff: Sniffer, s: State, step: Step)
    requires Safe(sniff, s) && !step.Put? && !step.Confirm? && !step.DeleteDocument? && !step.Begin?
    requires !step.RunDeletion?
    requires step.a in s.attempts && !step.Copy? && !step.Accept? && !step.Reject? && !step.DropCopy? && !Blind(s, step)
    ensures Safe(sniff, Next(sniff, s, step))
  {
    var a, at := step.a, s.attempts[step.a];
    assert AttemptSafe(s, a);
    UploadDropped(sniff, s, at.key);
    var dropped := s.(objects := s.objects - {at.key});
    if step.Download? && at.Started? {
      if at.key in s.objects { Moved(sniff, s, a, Fetched(at.key, s.objects[at.key])); }
      Moved(sniff, s, a, Rejecting(at.key));
    }
    if step.Judge? { Moved(sniff, s, a, NotAllowed(at.key)); }
    if step.DropUpload? || step.GiveUp? || step.DropObject? { Moved(sniff, dropped, a, Rejecting(at.key)); }
    if step.GiveUp? || step.Crash? || step.CheckCopy? { Moved(sniff, s, a, Rejecting(at.key)); }
    if step.CheckCopy? && at.FinishFailed? && !(s.doc.Some? && s.doc.value.key == at.file) {
      Holding(sniff, s, a, Unreferenced(at.key, at.file));
    }
    if step.LookAtRow? { Moved(sniff, s, a, Deleting(at.key)); }
  }

  lemma NextKeeps(sniff: Sniffer, s: State, step: Step)
    requires Safe(sniff, s) && !Blind(s, step)
    ensures Safe(sniff, Next(sniff, s, step))
  {
    hide Safe;
    match step
    case Put(n, bytes) => PutKeeps(sniff, s, n, bytes);
    case Confirm(n, stale) => ConfirmKeeps(sniff, s, n, stale);
    case DeleteDocument => DeleteKeeps(sniff, s);
    case Begin(a, key) => BeginKeeps(sniff, s, a, key);
    case RunDeletion(key) => DeletionKeeps(sniff, s, key);
    case Copy(a, ok) => if a in s.attempts && s.attempts[a].Fetched? &&
      sniff(s.attempts[a].bytes).Some? { CopyKeeps(sniff, s, a, ok); }
    case Accept(a, commit) => if a in s.attempts && s.attempts[a].Copied? { AcceptKeeps(sniff, s, a, commit); }
    case DropCopy(a) => if a in s.attempts &&
      (s.attempts[a].Unused? || s.attempts[a].Unreferenced?) { DropCopyKeeps(sniff, s, a); }
    case Reject(a, commit) => if a in s.attempts && s.attempts[a].Rejecting? { RejectKeeps(sniff, s, a, commit); }
    case _ => if step.a in s.attempts { AttemptKeeps(sniff, s, step); }
  }

  lemma PutKeeps(sniff: Sniffer, s: State, n: nat, bytes: Bytes)
    requires Safe(sniff, s)
    ensures Safe(sniff, Next(sniff, s, Put(n, bytes)))
  {
    var s2 := Next(sniff, s, Put(n, bytes));
    forall a | a in s2.attempts ensures AttemptSafe(s2, a) { assert AttemptSafe(s, a); }
  }

  lemma DeleteKeeps(sniff: Sniffer, s: State)
    requires Safe(sniff, s)
    ensures Safe(sniff, Next(sniff, s, DeleteDocument))
  {
    RowMoved(sniff, s, None);
  }

  lemma BeginKeeps(sniff: Sniffer, s: State, a: nat, key: Key)
    requires Safe(sniff, s)
    ensures Safe(sniff, Next(sniff, s, Begin(a, key)))
  {
    var s2 := Next(sniff, s, Begin(a, key));
    forall b | b in s2.attempts ensures AttemptSafe(s2, b) { if b in s.attempts { assert AttemptSafe(s, b); } }
  }

  lemma DeletionKeeps(sniff: Sniffer, s: State, key: Key)
    requires Safe(sniff, s)
    ensures Safe(sniff, Next(sniff, s, RunDeletion(key)))
  {
    if key in s.deletions {
      forall a | a in s.attempts && s.attempts[a].Copied?
        ensures s.attempts[a].file != key
      {
        assert AttemptSafe(s, a);
      }
      Dropped(sniff, s, key);
    }
  }

  /** No check of the run looks away from the previous file. */
  ghost predicate Sighted(sniff: Sniffer, steps: seq<Step>) {
    forall i :: 0 <= i < |steps| ==> !Blind(Run(sniff, FRESH, steps[..i]), steps[i])
  }

  lemma SightedBefore(sniff: Sniffer, steps: seq<Step>, n: nat)
    requires Sighted(sniff, steps) && n <= |steps|
    ensures Sighted(sniff, steps[..n])
  {
    forall i | 0 <= i < n ensures !Blind(Run(sniff, FRESH, steps[..n][..i]), steps[..n][i]) {
      assert steps[..n][..i] == steps[..i];
    }
  }

  /** Over every run without a blind check, ambiguous commits included, the file
      a download serves holds exactly the bytes a job inspected and allowed, under
      the type sniffed from them, and nothing is about to delete it. */
  lemma {:induction false} RunIsSafe(sniff: Sniffer, steps: seq<Step>)
    requires Sighted(sniff, steps)
    ensures Safe(sniff, Run(sniff, FRESH, steps))
  {
    if steps == [] {
      FreshIsSafe(sniff);
    } else {
      var n := |steps| - 1;
      SightedBefore(sniff, steps, n);
      RunIsSafe(sniff, steps[..n]);
      NextKeeps(sniff, Run(sniff, FRESH, steps[..n]), steps[n]);
    }
  }

  // ------------------------------------------------------------ verdicts land

  /** The row waits for the verdict on upload `key`. */
  predicate AwaitsVerdict(s: State, key: Key) {
    s.doc.Some? && s.doc.value.status == Pending && s.doc.value.key == key
  }

  /** What an attempt copied was allowed. */
  lemma {:induction false} CopiesAreAllowed(sniff: Sniffer, steps: seq<Step>, a: nat)
    requires a in Run(sniff, FRESH, steps).attempts && Run(sniff, FRESH, steps).attempts[a].Copied?
    ensures sniff(Run(sniff, FRESH, steps).attempts[a].bytes).Some?
  {
    if steps != [] {
      var n := |steps| - 1;
      var s := Run(sniff, FRESH, steps[..n]);
      if a in s.attempts && s.attempts[a].Copied? { CopiesAreAllowed(sniff, steps[..n], a); }
    }
  }

  /** An acceptance that lands, reported or not, makes the row serve the copy under
      its sniffed type and queues the file it replaces; one that fails, or comes
      when the row no longer waits, leaves the row alone. */
  lemma AcceptLands(sniff: Sniffer, steps: seq<Step>, a: nat, commit: Commit)
    requires var s := Run(sniff, FRESH, steps); a in s.attempts && s.attempts[a].Copied?
    ensures var s := Run(sniff, FRESH, steps);
      var s2 := Run(sniff, FRESH, steps + [Accept(a, commit)]);
      var at := s.attempts[a];
      && sniff(at.bytes).Some? && s2.objects == s.objects && a in s2.attempts
      && if commit != Failed && AwaitsVerdict(s, at.key) then
           && s2.doc == Some(Doc(at.file, Ready, sniff(at.bytes).value, NoKey, ""))
           && s2.deletions == s.deletions + (if s.doc.value.prev == NoKey then {} else {s.doc.value.prev})
           && s2.attempts[a] == (if commit == Committed then Cleaning(at.key) else FinishFailed(at.key, at.file))
         else
           && s2.doc == s.doc && s2.deletions == s.deletions
           && s2.attempts[a] == (if commit == Committed then Unused(at.key, at.file) else FinishFailed(at.key, at.file))
  {
    CopiesAreAllowed(sniff, steps, a);
    RunMore(sniff, FRESH, steps, Accept(a, commit));
    hide Run;
  }

  /** A rejection that lands puts the previous file back, or leaves the document
      refused; any other leaves the row alone. */
  lemma RejectLands(sniff: Sniffer, steps: seq<Step>, a: nat, commit: Commit)
    requires var s := Run(sniff, FRESH, steps); a in s.attempts && s.attempts[a].Rejecting?
    ensures var s := Run(sniff, FRESH, steps);
      var s2 := Run(sniff, FRESH, steps + [Reject(a, commit)]);
      && s2.objects == s.objects && s2.deletions == s.deletions
      && s2.doc == if commit != Failed && AwaitsVerdict(s, s.attempts[a].key) then
                     Some(if s.doc.value.prev == NoKey then Doc(s.doc.value.key, Refused, "", NoKey, "")
                          else Doc(s.doc.value.prev, Ready, s.doc.value.prevType, NoKey, ""))
                   else s.doc
  {
    RunMore(sniff, FRESH, steps, Reject(a, commit));
    hide Run;
  }

  lemma {:induction false} RunConcat(sniff: Sniffer, s: State, a: seq<Step>, b: seq<Step>)
    ensures Run(sniff, s, a + b) == Run(sniff, Run(sniff, s, a), b)
    decreases |b|
  {
    if b == [] {
      assert a + b == a;
    } else {
      var n := |b| - 1;
      assert (a + b)[..|a + b| - 1] == a + b[..n];
      RunConcat(sniff, s, a, b[..n]);
    }
  }

  /** An upload from the client to the job that has copied it. */
  function Uploading(n: nat, bytes: Bytes, a: nat): seq<Step> {
    [Put(n, bytes)] + [Confirm(n, true)] + [Begin(a, UploadKey(n))] + [Download(a)]
  }

  lemma UploadFetched(sniff: Sniffer, s: State, n: nat, bytes: Bytes, a: nat)
    requires s.doc.Some? && a !in s.attempts
    ensures var s2 := Run(sniff, s, Uploading(n, bytes, a));
      && AwaitsVerdict(s2, UploadKey(n)) && s2.nextFile == s.nextFile
      && ((Served(s.doc).Some? ==> Served(s.doc).value.0 != NoKey) ==> Served(s2.doc) == Served(s.doc))
      && a in s2.attempts && s2.attempts[a] == Fetched(UploadKey(n), bytes)
  {
    var p, c, b := [Put(n, bytes)], [Confirm(n, true)], [Begin(a, UploadKey(n))];
    assert Run(sniff, s, []) == s && [] + p == p;
    RunMore(sniff, s, [], Put(n, bytes));
    RunMore(sniff, s, p, Confirm(n, true));
    RunMore(sniff, s, p + c, Begin(a, UploadKey(n)));
    RunMore(sniff, s, p + c + b, Download(a));
    hide Run;
  }

  lemma FetchedIsServed(sniff: Sniffer, s: State, key: Key, bytes: Bytes, a: nat, commit: Commit)
    requires AwaitsVerdict(s, key) && a in s.attempts && s.attempts[a] == Fetched(key, bytes)
    requires sniff(bytes).Some? && commit != Failed
    ensures var s2 := Next(sniff, Next(sniff, s, Copy(a, true)), Accept(a, commit));
      var file := FileKey(s.nextFile);
      Served(s2.doc) == Some((file, sniff(bytes).value)) && file in s2.objects && s2.objects[file] == bytes
  {
  }

  lemma FetchedIsRefused(sniff: Sniffer, s: State, key: Key, bytes: Bytes, a: nat)
    requires AwaitsVerdict(s, key) && a in s.attempts && s.attempts[a] == Fetched(key, bytes) && sniff(bytes).None?
    ensures var s2 := Next(sniff, Next(sniff, Next(sniff, s, Judge(a)), DropUpload(a)), Reject(a, Committed));
      Served(s2.doc) == Served(s.doc) && s2.doc.Some? && s2.doc.value.status != Pending
  {
  }

  /** Whatever happened before: when a client uploads allowed bytes and a job gets
      through, the document serves exactly those bytes under their own type. */
  lemma UploadIsServed(sniff: Sniffer, steps: seq<Step>, n: nat, bytes: Bytes, a: nat, commit: Commit)
    requires Run(sniff, FRESH, steps).doc.Some? && a !in Run(sniff, FRESH, steps).attempts
    requires sniff(bytes).Some? && commit != Failed
    ensures var s2 := Run(sniff, FRESH, steps + (Uploading(n, bytes, a) + [Copy(a, true)] + [Accept(a, commit)]));
      var file := FileKey(Run(sniff, FRESH, steps).nextFile);
      Served(s2.doc) == Some((file, sniff(bytes).value)) && file in s2.objects && s2.objects[file] == bytes
  {
    hide Run;
    hide Next;
    hide Uploading;
    var s, up := Run(sniff, FRESH, steps), Uploading(n, bytes, a);
    RunConcat(sniff, FRESH, steps, up + [Copy(a, true)] + [Accept(a, commit)]);
    UploadFetched(sniff, s, n, bytes, a);
    RunMore(sniff, s, up, Copy(a, true));
    RunMore(sniff, s, up + [Copy(a, true)], Accept(a, commit));
    FetchedIsServed(sniff, Run(sniff, s, up), UploadKey(n), bytes, a, commit);
  }

  lemma ServedIsFile(sniff: Sniffer, s: State)
    requires Safe(sniff, s)
    ensures Served(s.doc).Some? ==> Served(s.doc).value.0 != NoKey
  {
  }

  /** When the bytes are not allowed, it goes on serving what it served. */
  lemma UploadIsRefused(sniff: Sniffer, steps: seq<Step>, n: nat, bytes: Bytes, a: nat)
    requires Sighted(sniff, steps)
    requires Run(sniff, FRESH, steps).doc.Some? && a !in Run(sniff, FRESH, steps).attempts && sniff(bytes).None?
    ensures
      var more := Uploading(n, bytes, a) + [Judge(a)] + [DropUpload(a)] + [Reject(a, Committed)];
      var s2 := Run(sniff, FRESH, steps + more);
      Served(s2.doc) == Served(Run(sniff, FRESH, steps).doc) && s2.doc.Some? && s2.doc.value.status != Pending
  {
    hide Run;
    hide Next;
    hide Uploading;
    hide Safe;
    var s, up := Run(sniff, FRESH, steps), Uploading(n, bytes, a);
    RunIsSafe(sniff, steps);
    ServedIsFile(sniff, s);
    RunConcat(sniff, FRESH, steps, up + [Judge(a)] + [DropUpload(a)] + [Reject(a, Committed)]);
    UploadFetched(sniff, s, n, bytes, a);
    RunMore(sniff, s, up, Judge(a));
    RunMore(sniff, s, up + [Judge(a)], DropUpload(a));
    RunMore(sniff, s, up + [Judge(a)] + [DropUpload(a)], Reject(a, Committed));
    FetchedIsRefused(sniff, Run(sniff, s, up), UploadKey(n), bytes, a);
  }

  /** A finished attempt removes its upload, unless the row waits on it again. */
  lemma CleanupDrops(sniff: Sniffer, steps: seq<Step>, a: nat)
    requires var s := Run(sniff, FRESH, steps); a in s.attempts && s.attempts[a].Cleaning?
    ensures var s := Run(sniff, FRESH, steps);
      var s2 := Run(sniff, FRESH, steps + [LookAtRow(a)] + [DropObject(a)]);
      && s2.doc == s.doc && a !in s2.attempts
      && s2.objects == if AwaitsVerdict(s, s.attempts[a].key) then s.objects else s.objects - {s.attempts[a].key}
  {
    RunMore(sniff, FRESH, steps, LookAtRow(a));
    RunMore(sniff, FRESH, steps + [LookAtRow(a)], DropObject(a));
    hide Run;
  }

  /** A replaced file that is queued is deleted when its turn comes, and nothing
      else is. */
  lemma DeletionRuns(sniff: Sniffer, steps: seq<Step>, key: Key)
    ensures var s := Run(sniff, FRESH, steps);
      var s2 := Run(sniff, FRESH, steps + [RunDeletion(key)]);
      s2 == if key in s.deletions then s.(objects := s.objects - {key}) else s
  {
    RunMore(sniff, FRESH, steps, RunDeletion(key));
  }

  /** A job that finds no upload rejects it. */
  lemma MissingIsRejected(sniff: Sniffer, steps: seq<Step>, a: nat)
    requires var s := Run(sniff, FRESH, steps); a in s.attempts && s.attempts[a].Started?
    requires var s := Run(sniff, FRESH, steps); s.attempts[a].key !in s.objects
    ensures var s := Run(sniff, FRESH, steps);
      var s2 := Run(sniff, FRESH, steps + [Download(a)] + [Reject(a, Committed)]);
      && !AwaitsVerdict(s2, s.attempts[a].key) && s2.objects == s.objects
      && (!AwaitsVerdict(s, s.attempts[a].key) ==> s2.doc == s.doc)
  {
    RunMore(sniff, FRESH, steps, Download(a));
    RunMore(sniff, FRESH, steps + [Download(a)], Reject(a, Committed));
    RejectLands(sniff, steps + [Download(a)], a, Committed);
    hide Run;
  }

  /** Without an ambiguous acceptance no check is ever blind. */
  lemma {:induction false} UnambiguousIsSighted(sniff: Sniffer, steps: seq<Step>)
    requires forall i :: 0 <= i < |steps| && steps[i].Accept? ==> !steps[i].commit.Ambiguous?
    ensures Sighted(sniff, steps) && Clear(Run(sniff, FRESH, steps))
  {
    if steps != [] {
      var n := |steps| - 1;
      UnambiguousIsSighted(sniff, steps[..n]);
      RunIsSafe(sniff, steps[..n]);
      ClearKeeps(sniff, Run(sniff, FRESH, steps[..n]), steps[n]);
      forall i | 0 <= i < |steps| ensures !Blind(Run(sniff, FRESH, steps[..i]), steps[i]) {
        if i < n { assert steps[..n][..i] == steps[..i] && steps[..n][i] == steps[i]; }
      }
    }
  }

  /** A finish that reported an error left its copy unnamed. */
  ghost predicate Clear(s: State) {
    forall a :: a in s.attempts && s.attempts[a].FinishFailed? && Served(s.doc).Some? ==>
      Served(s.doc).value.0 != s.attempts[a].file
  }

  lemma ClearKeeps(sniff: Sniffer, s: State, step: Step)
    requires Safe(sniff, s) && Clear(s) && (step.Accept? ==> !step.commit.Ambiguous?)
    ensures Clear(Next(sniff, s, step))
  {
    forall a | a in s.attempts ensures AttemptSafe(s, a) {}
    hide AttemptSafe;
    if step.Confirm? { ConfirmKeeps(sniff, s, step.n, step.stale); }
    if step.Reject? && step.a in s.attempts && s.attempts[step.a].Rejecting? {
      RejectKeeps(sniff, s, step.a, step.commit);
    }
  }

  /** The file the row serves is gone. */
  predicate Lost(s: State) { Served(s.doc).Some? && Served(s.doc).value.0 !in s.objects }

  /** Exactly then: from any state a sighted run reaches, a finish that reported
      an error and now checks and drops its copy costs the document the file it
      serves if and only if the check is blind. */
  lemma BlindCheckCosts(sniff: Sniffer, steps: seq<Step>, a: nat)
    requires Sighted(sniff, steps)
    requires var s := Run(sniff, FRESH, steps); a in s.attempts && s.attempts[a].FinishFailed?
    ensures Lost(Run(sniff, FRESH, steps + [CheckCopy(a), DropCopy(a)])) <==>
      Blind(Run(sniff, FRESH, steps), CheckCopy(a))
  {
    hide *;
    RunIsSafe(sniff, steps);
    RunMore(sniff, FRESH, steps, CheckCopy(a));
    RunMore(sniff, FRESH, steps + [CheckCopy(a)], DropCopy(a));
    assert steps + [CheckCopy(a)] + [DropCopy(a)] == steps + [CheckCopy(a), DropCopy(a)];
    BlindDrop(sniff, Run(sniff, FRESH, steps), a);
  }

  lemma BlindDrop(sniff: Sniffer, s: State, a: nat)
    requires Safe(sniff, s) && a in s.attempts && s.attempts[a].FinishFailed?
    ensures Lost(Next(sniff, Next(sniff, s, CheckCopy(a)), DropCopy(a))) <==> Blind(s, CheckCopy(a))
  {
    assert RowSafe(sniff, s) && AttemptSafe(s, a);
    hide Safe;
  }

  /** Over every sighted run, only the deletion of the document or the acceptance
      of the very upload the row waits on changes the file it serves: confirming,
      taking over, rejecting, failing, cleaning up and late verdicts never do. */
  lemma ServedStays(sniff: Sniffer, steps: seq<Step>, step: Step)
    requires Sighted(sniff, steps) && Served(Run(sniff, FRESH, steps).doc).Some?
    ensures var s := Run(sniff, FRESH, steps);
      var s2 := Run(sniff, FRESH, steps + [step]);
      || Served(s2.doc) == Served(s.doc)
      || (step.DeleteDocument? && s2.doc == None)
      || (step.Accept? && step.commit.Lands() && step.a in s.attempts && s.attempts[step.a].Copied? &&
          Waits(s.doc, s.attempts[step.a].key)
          && Served(s2.doc).Some? && Served(s2.doc).value.0 == s.attempts[step.a].file)
  {
    var s := Run(sniff, FRESH, steps);
    RunIsSafe(sniff, steps);
    RunMore(sniff, FRESH, steps, step);
    if step.Confirm? { ConfirmKeeps(sniff, s, step.n, step.stale); }
    if step.Reject? && step.a in s.attempts && s.attempts[step.a].Rejecting? {
      RejectKeeps(sniff, s, step.a, step.commit);
    }
  }

  lemma RunMore(sniff: Sniffer, s: State, steps: seq<Step>, step: Step)
    ensures Run(sniff, s, steps + [step]) == Next(sniff, Run(sniff, s, steps), step)
  {
    assert (steps + [step])[..|steps|] == steps;
  }

  // --------------------------------------------------------- a run that does it

  function AllowAll(): Sniffer { (b: Bytes) => Some("text/plain") }

  const WAITING := Doc(UploadKey(0), Pending, "", NoKey, "")

  /** A first upload, confirmed; then copied by its job; then accepted unseen. */
  const CONFIRMED := State(Some(WAITING), map[UploadKey(0) := 7], map[], {UploadKey(0)}, {}, map[], 0)
  const COPIED := State(
    Some(WAITING), map[UploadKey(0) := 7, FileKey(0) := 7], map[FileKey(0) := 7], {UploadKey(0)}, {},
    map[0 := Copied(UploadKey(0), FileKey(0), 7)], 1)
  const UNSEEN := COPIED.(
    doc := Some(Doc(FileKey(0), Ready, "text/plain", NoKey, "")), attempts := map[0 := FinishFailed(UploadKey(0),
                                                                                                    FileKey(0))])

  lemma ConfirmedNext()
    ensures Next(AllowAll(), Next(AllowAll(), FRESH, Put(0, 7)), Confirm(0, false)) == CONFIRMED
  {
  }

  lemma CopiedNext()
    ensures var sn := AllowAll();
      Next(sn, Next(sn, Next(sn, CONFIRMED, Begin(0, UploadKey(0))), Download(0)), Copy(0, true)) == COPIED
  {
    var sn := AllowAll();
    assert Next(sn, CONFIRMED, Begin(0, UploadKey(0))) == CONFIRMED.(attempts := map[0 := Started(UploadKey(0))]);
    assert Next(sn, CONFIRMED.(attempts := map[0 := Started(UploadKey(0))]), Download(0))
        == CONFIRMED.(attempts := map[0 := Fetched(UploadKey(0), 7)]);
  }

  lemma UnseenNext()
    ensures Next(AllowAll(), COPIED, Accept(0, Ambiguous)) == UNSEEN
    ensures Next(AllowAll(), UNSEEN, Confirm(1, false)).attempts == UNSEEN.attempts
    ensures Next(AllowAll(), UNSEEN, Confirm(1, false)).doc ==
      Some(Doc(UploadKey(1), Pending, "", FileKey(0), "text/plain"))
  {
  }

  const UPLOADED := [Put(0, 7)] + [Confirm(0, false)]
  const VALIDATED := UPLOADED + [Begin(0, UploadKey(0))] + [Download(0)] + [Copy(0, true)]

  /** A first upload is validated, but its acceptance lands unseen; a second one
      is confirmed before the job looks at the row. */
  const REPLACED := VALIDATED + [Accept(0, Ambiguous)] + [Confirm(1, false)]

  lemma RunsToCopied()
    ensures Run(AllowAll(), FRESH, VALIDATED) == COPIED
  {
    var sn := AllowAll();
    assert Run(sn, FRESH, []) == FRESH && [] + [Put(0, 7)] == [Put(0, 7)];
    hide Run;
    hide Next;
    hide AllowAll;
    RunMore(sn, FRESH, [], Put(0, 7));
    RunMore(sn, FRESH, [Put(0, 7)], Confirm(0, false));
    ConfirmedNext();
    RunMore(sn, FRESH, UPLOADED, Begin(0, UploadKey(0)));
    RunMore(sn, FRESH, UPLOADED + [Begin(0, UploadKey(0))], Download(0));
    RunMore(sn, FRESH, UPLOADED + [Begin(0, UploadKey(0))] + [Download(0)], Copy(0, true));
    CopiedNext();
  }

  lemma RunsToReplaced()
    ensures var s := Run(AllowAll(), FRESH, REPLACED);
      && s.doc == Some(Doc(UploadKey(1), Pending, "", FileKey(0), "text/plain"))
      && 0 in s.attempts && s.attempts[0] == FinishFailed(UploadKey(0), FileKey(0))
  {
    hide Run;
    hide Next;
    hide AllowAll;
    RunsToCopied();
    RunMore(AllowAll(), FRESH, VALIDATED, Accept(0, Ambiguous));
    RunMore(AllowAll(), FRESH, VALIDATED + [Accept(0, Ambiguous)], Confirm(1, false));
    UnseenNext();
  }

  lemma UncheckedIsSighted(sniff: Sniffer, steps: seq<Step>)
    requires forall i :: 0 <= i < |steps| ==> !steps[i].CheckCopy?
    ensures Sighted(sniff, steps)
  {
  }

  /** The document then goes on serving a file that no longer exists. */
  lemma AmbiguousCommitLosesFile()
    ensures Lost(Run(AllowAll(), FRESH, REPLACED + [CheckCopy(0), DropCopy(0)]))
  {
    hide Run;
    RunsToReplaced();
    UncheckedIsSighted(AllowAll(), REPLACED);
    BlindCheckCosts(AllowAll(), REPLACED, 0);
  }
}
