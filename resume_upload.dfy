/**
 * The upload list of src/components/resume/resume-upload.tsx. Dropped files
 * are appended as uploading at 0%. A simulated timer raises one file's
 * progress by a random step below 20 points, capped at 100, and marks it
 * successful on reaching 100. A file can be removed from the list. The random
 * ids and steps are parameters; the timers that schedule the ticks are not
 * modelled.
 */
module ResumeUpload {
  import opened Wrappers
  import opened Lists

  datatype UploadStatus = Uploading | Success | Error

  /** A file the drop zone accepted: `File`'s name, size and MIME type. */
  datatype Dropped = Dropped(name: string, size: int, mimeType: string)

  /** `ResumeFile`; progress is a percentage. */
  datatype ResumeFile = ResumeFile(
    id: string,
    name: string,
    size: int,
    mimeType: string,
    status: UploadStatus,
    progress: real,
    error: Option<string>)

  const FULL := 100.0
  const MAX_STEP := 20.0

  /** The entry a dropped file starts as. */
  function NewFile(d: Dropped, id: string): (f: ResumeFile)
    ensures f.id == id && f.name == d.name && f.size == d.size && f.mimeType == d.mimeType
    ensures f.status == Uploading && f.progress == 0.0 && f.error.None?
  {
    ResumeFile(id, d.name, d.size, d.mimeType, Uploading, 0.0, None)
  }

  /** The entries for one drop, in drop order, the i-th with the i-th fresh id. */
  function NewFiles(accepted: seq<Dropped>, ids: seq<string>): (r: seq<ResumeFile>)
    requires |ids| == |accepted|
    ensures |r| == |accepted|
    ensures forall i :: 0 <= i < |r| ==> r[i] == NewFile(accepted[i], ids[i])
  {
    seq(|accepted|, i requires 0 <= i < |accepted| => NewFile(accepted[i], ids[i]))
  }

  /** One tick of a file: progress `min(p + step, 100)`, and success exactly at 100. */
  function TickFile(f: ResumeFile, step: real): (g: ResumeFile)
    ensures g.progress == (if f.progress + step < FULL then f.progress + step else FULL)
    ensures g.status == Success <==> g.progress == FULL
    ensures g.status != Error
    ensures g.(progress := f.progress, status := f.status) == f
  {
    var progress := if f.progress + step < FULL then f.progress + step else FULL;
    f.(progress := progress, status := if progress == FULL then Success else Uploading)
  }

  /** A tick never lowers progress and never passes 100. */
  lemma TickBounds(f: ResumeFile, step: real)
    requires 0.0 <= f.progress <= FULL && 0.0 <= step < MAX_STEP
    ensures f.progress <= TickFile(f, step).progress <= FULL
  {
  }

  /** Once a file has succeeded, further ticks keep it at 100 and successful. */
  lemma SuccessIsStable(f: ResumeFile, step: real, next: real)
    requires 0.0 <= f.progress <= FULL && 0.0 <= step && 0.0 <= next
    requires TickFile(f, step).status == Success
    ensures TickFile(TickFile(f, step), next) == TickFile(f, step)
  {
  }

  /** A file whose progress lies in 0..100, is successful exactly at 100, and has not failed. */
  predicate ValidFile(f: ResumeFile) {
    0.0 <= f.progress <= FULL && (f.status == Success <==> f.progress == FULL) && f.status != Error
  }

  predicate ValidFiles(files: seq<ResumeFile>) {
    forall i :: 0 <= i < |files| ==> ValidFile(files[i])
  }

  /** The list after one tick of the file with that id: only its entries change, and the length and order stay. */
  function Ticked(files: seq<ResumeFile>, id: string, step: real): (r: seq<ResumeFile>)
    ensures |r| == |files|
    ensures forall i :: 0 <= i < |files| && files[i].id != id ==> r[i] == files[i]
    ensures forall i :: 0 <= i < |files| && files[i].id == id ==> r[i] == TickFile(files[i], step)
  {
    Map(files, (f: ResumeFile) => if f.id == id then TickFile(f, step) else f)
  }

  /** A tick keeps every entry valid. */
  lemma TickedValid(files: seq<ResumeFile>, id: string, step: real)
    requires ValidFiles(files) && 0.0 <= step < MAX_STEP
    ensures ValidFiles(Ticked(files, id, step))
  {
  }

  /** The list without the entries of that id: every entry left has another id, and every entry of another id is left. */
  function Removed(files: seq<ResumeFile>, id: string): (r: seq<ResumeFile>)
    ensures forall i :: 0 <= i < |r| ==> r[i].id != id && r[i] in files
    ensures forall i :: 0 <= i < |files| && files[i].id != id ==> files[i] in r
  {
    Filter(files, (f: ResumeFile) => f.id != id)
  }

  /** Removing keeps the others in order and keeps the list valid. */
  lemma RemovedProperties(files: seq<ResumeFile>, more: seq<ResumeFile>, id: string)
    ensures Removed(files + more, id) == Removed(files, id) + Removed(more, id)
    ensures ValidFiles(files) ==> ValidFiles(Removed(files, id))
  {
    FilterAppend(files, more, (f: ResumeFile) => f.id != id);
  }

  /** The component's state: the file list and whether an upload is in progress. */
  class Uploader {
    var files: seq<ResumeFile>
    var isUploading: bool

    predicate Valid()
      reads this
    {
      ValidFiles(files)
    }

    constructor ()
      ensures files == [] && !isUploading && Valid()
    {
      files := [];
      isUploading := false;
    }

    /** `onDrop`: append the new entries after the existing ones and mark the upload as running. */
    method OnDrop(accepted: seq<Dropped>, ids: seq<string>)
      requires Valid() && |ids| == |accepted|
      modifies this
      ensures files == old(files) + NewFiles(accepted, ids) && isUploading
      ensures Valid()
    {
      files := files + NewFiles(accepted, ids);
      isUploading := true;
      assert forall i :: |old(files)| <= i < |files| ==> files[i] == NewFile(accepted[i - |old(files)|], ids[i - |old(files)|]);
    }

    /** One timer tick for the file with that id. */
    method Tick(id: string, step: real)
      requires Valid() && 0.0 <= step < MAX_STEP
      modifies this
      ensures files == Ticked(old(files), id, step) && isUploading == old(isUploading)
      ensures Valid()
    {
      TickedValid(files, id, step);
      files := Ticked(files, id, step);
    }

    /** `removeFile`. */
    method RemoveFile(id: string)
      requires Valid()
      modifies this
      ensures files == Removed(old(files), id) && isUploading == old(isUploading)
      ensures Valid()
    {
      RemovedProperties(files, [], id);
      files := Removed(files, id);
    }
  }
}
