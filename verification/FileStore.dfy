/** Reading and guarded writing of files (src-tauri/src/fs_ops.rs), without symbolic links:
    where a path leads, and what the disk does, come from outside. */
module FileStore {
  import opened Wrappers
  import opened Bytes
  import opened ContentVersion

  type Path = string

  const MAX_READ: nat := 10 * 1024 * 1024
  const BINARY_SCAN: nat := 8192

  datatype Parent = NoParent | MissingParent | InsideRoot | OutsideRoot

  /** Where a path given by the caller leads: the file, whether that is inside the root, and
      what is known of its directory. */
  datatype Place = Place(path: Path, inside: bool, parent: Parent)

  datatype Error =
    | NotFound | Traversal | TooLarge | Unreadable | ChangedOutside | DeletedOutside | BadPath | WriteFailed

  datatype Contents = Contents(raw: seq<Byte>, binary: bool, size: nat, version: string)

  /** A read works or not; a write works, or leaves something behind. */
  datatype Disk = Disk(readable: bool, writable: bool, left: seq<Byte>)

  predicate Binary(raw: seq<Byte>) {
    exists i | 0 <= i < |raw| && i < BINARY_SCAN :: raw[i] == 0
  }

  class Files {
    var files: map<Path, seq<Byte>>

    constructor ()
      ensures files == map[]
    {
      files := map[];
    }

    /** A file is read if it exists inside the root, is not over 10 MB and the disk can read
        it; what is returned describes exactly the bytes on disk. */
    method Read(place: Place, disk: Disk) returns (result: Result<Contents, Error>)
      ensures result == ReadOutcome(files, place, disk)
      ensures result == Err(NotFound) <==> place.path !in files
      ensures result == Err(Traversal) <==> place.path in files && !place.inside
      ensures result == Err(TooLarge) <==> place.path in files && place.inside && |files[place.path]| > 10 * 1024 * 1024
      ensures result == Err(Unreadable) <==>
                place.path in files && place.inside && |files[place.path]| <= 10 * 1024 * 1024 && !disk.readable
      ensures result.Err? ==> result.error in {NotFound, Traversal, TooLarge, Unreadable}
    {
      if place.path !in files {
        return Err(NotFound);
      }
      if !place.inside {
        return Err(Traversal);
      }
      var raw := files[place.path];
      if |raw| > MAX_READ {
        return Err(TooLarge);
      }
      if !disk.readable {
        return Err(Unreadable);
      }
      var binary := false;
      var i := 0;
      while i < |raw| && i < BINARY_SCAN && !binary
        invariant 0 <= i <= |raw| && i <= BINARY_SCAN
        invariant binary <==> exists k | 0 <= k < i :: raw[k] == 0
      {
        binary := raw[i] == 0;
        i := i + 1;
      }
      var version := ComputeVersion(raw);
      result := Ok(Contents(if binary then [] else raw, binary, |raw|, version));
    }

    /** Writing with an expected version goes through only onto the very version expected;
        whenever it is refused, nothing changes on disk. */
    method Write(place: Place, content: seq<Byte>, expected: Option<string>, disk: Disk) returns (result: Result<string, Error>)
      modifies this
      ensures result.Ok? ==> files == old(files)[place.path := content] && result.value == Version(content)
      ensures result.Err? && result.error != WriteFailed ==> files == old(files)
      ensures result.Err? && result.error == WriteFailed ==> files == old(files)[place.path := disk.left]
      ensures result == Outcome(old(files), place, content, expected, disk)
      ensures files != old(files) ==> if place.path in old(files) then place.inside else place.parent.InsideRoot?
      ensures place.path in old(files) && !place.inside ==> result == Err(Traversal)
      ensures place.path in old(files) && place.inside && expected.None? ==> result == if disk.writable then Ok(Version(content)) else Err(WriteFailed)
      ensures place.path in old(files) && place.inside && expected.Some? && !disk.readable ==> result == Err(Unreadable)
      ensures place.path in old(files) && place.inside && expected.Some? && disk.readable ==>
                result == if Version(old(files)[place.path]) != expected.value then Err(ChangedOutside)
                          else if disk.writable then Ok(Version(content)) else Err(WriteFailed)
      ensures place.path !in old(files) && expected.Some? ==> result == Err(DeletedOutside)
      ensures place.path !in old(files) && expected.None? ==>
                && (place.parent.NoParent? ==> result == Err(BadPath))
                && (place.parent.MissingParent? ==> result == Err(NotFound))
                && (place.parent.OutsideRoot? ==> result == Err(Traversal))
                && (place.parent.InsideRoot? ==> result == if disk.writable then Ok(Version(content)) else Err(WriteFailed))
    {
      if place.path in files {
        if !place.inside {
          return Err(Traversal);
        }
        if expected.Some? {
          if !disk.readable {
            return Err(Unreadable);
          }
          var current := ComputeVersion(files[place.path]);
          if current != expected.value {
            return Err(ChangedOutside);
          }
        }
      } else {
        if expected.Some? {
          return Err(DeletedOutside);
        }
        match place.parent {
          case NoParent => return Err(BadPath);
          case MissingParent => return Err(NotFound);
          case OutsideRoot => return Err(Traversal);
          case InsideRoot =>
        }
      }
      if !disk.writable {
        files := files[place.path := disk.left];
        return Err(WriteFailed);
      }
      files := files[place.path := content];
      var version := ComputeVersion(content);
      result := Ok(version);
    }
  }

  /** Whether writing is allowed at all, before the disk is touched. */
  function Refusal(files: map<Path, seq<Byte>>, place: Place, expected: Option<string>, disk: Disk): Option<Error> {
    if place.path in files then
      if !place.inside then Some(Traversal)
      else if expected.None? then None
      else if !disk.readable then Some(Unreadable)
      else if Version(files[place.path]) != expected.value then Some(ChangedOutside)
      else None
    else if expected.Some? then Some(DeletedOutside)
    else match place.parent
      case NoParent => Some(BadPath)
      case MissingParent => Some(NotFound)
      case OutsideRoot => Some(Traversal)
      case InsideRoot => None
  }

  function Outcome(files: map<Path, seq<Byte>>, place: Place, content: seq<Byte>, expected: Option<string>, disk: Disk): Result<string, Error> {
    var refusal := Refusal(files, place, expected, disk);
    if refusal.Some? then Err(refusal.value) else if disk.writable then Ok(Version(content)) else Err(WriteFailed)
  }

  /** Saving with the version of what was read is refused if the file has meanwhile been
      edited in length or in exactly one byte, and is told so unless the file cannot be
      looked at; of a deleted file it is told exactly that. */
  lemma StaleWriteRefused(read: seq<Byte>, files: map<Path, seq<Byte>>, place: Place, content: seq<Byte>, disk: Disk)
    requires
      || place.path !in files
      || |files[place.path]| != |read|
      || exists i :: DifferInOneByte(read, files[place.path], i)
    ensures
      var r := Outcome(files, place, content, Some(Version(read)), disk);
      && r.Err?
      && (r.error == DeletedOutside <==> place.path !in files)
      && (r.error == ChangedOutside <==> place.path in files && place.inside && disk.readable)
      && (r.error == Traversal <==> place.path in files && !place.inside)
      && r.error in {Traversal, Unreadable, ChangedOutside, DeletedOutside}
  {
    if place.path in files { EditChangesVersion(read, files[place.path]); }
  }

  /** Saving over an unchanged file is never refused for its version, and a save over any
      other is, unless the two contents collide in length and hash. */
  lemma GuardedWriteIffSameVersion(read: seq<Byte>, files: map<Path, seq<Byte>>, place: Place, content: seq<Byte>, disk: Disk)
    requires place.path in files && place.inside && disk.readable && disk.writable
    ensures Outcome(files, place, content, Some(Version(read)), disk).Ok? <==>
            |files[place.path]| == |read| && Fnv(files[place.path]) == Fnv(read)
  {
    SameVersionIff(files[place.path], read);
  }

  function ReadOutcome(files: map<Path, seq<Byte>>, place: Place, disk: Disk): Result<Contents, Error> {
    if place.path !in files then Err(NotFound)
    else if !place.inside then Err(Traversal)
    else if |files[place.path]| > MAX_READ then Err(TooLarge)
    else if !disk.readable then Err(Unreadable)
    else
      var raw := files[place.path];
      Ok(Contents(if Binary(raw) then [] else raw, Binary(raw), |raw|, Version(raw)))
  }

  predicate Readable(files: map<Path, seq<Byte>>, place: Place, disk: Disk) {
    place.path in files && place.inside && disk.readable && |files[place.path]| <= 10 * 1024 * 1024
  }

  /** A file without a NUL among its first 8192 bytes is read whole and as text, whatever comes
      after them. */
  lemma TextIsReadWhole(files: map<Path, seq<Byte>>, place: Place, disk: Disk)
    requires Readable(files, place, disk)
    requires forall i | 0 <= i < |files[place.path]| && i < 8192 :: files[place.path][i] != 0
    ensures ReadOutcome(files, place, disk) == Ok(Contents(files[place.path], false, |files[place.path]|, Version(files[place.path])))
  {
  }

  /** With a NUL among the first 8192 bytes it is binary, and nothing of it is returned but
      its size and version. */
  lemma NulMakesBinary(files: map<Path, seq<Byte>>, place: Place, disk: Disk, i: nat)
    requires Readable(files, place, disk) && i < |files[place.path]| && i < 8192 && files[place.path][i] == 0
    ensures ReadOutcome(files, place, disk) == Ok(Contents([], true, |files[place.path]|, Version(files[place.path])))
  {
    assert Binary(files[place.path]);
  }

  /** Saved text without a NUL is read back as exactly that text. */
  lemma SavedTextReadsBack(files: map<Path, seq<Byte>>, place: Place, content: seq<Byte>, expected: Option<string>, disk: Disk)
    requires Outcome(files, place, content, expected, disk).Ok? && place.inside && disk.readable && |content| <= 10 * 1024 * 1024
    requires 0 !in content
    ensures var read := ReadOutcome(files[place.path := content], place, disk);
            read.Ok? && read.value.raw == content && !read.value.binary
  {
    TextIsReadWhole(files[place.path := content], place, disk);
  }

  /** What was saved is read back with the version the save returned, exactly if it is not
      over 10 MB; and saving again with that version is let through. */
  lemma SaveThenRead(files: map<Path, seq<Byte>>, place: Place, content: seq<Byte>, next: seq<Byte>, expected: Option<string>, disk: Disk)
    requires Outcome(files, place, content, expected, disk).Ok? && place.inside && disk.readable
    ensures var saved := files[place.path := content];
            var read := ReadOutcome(saved, place, disk);
            && (read.Ok? <==> |content| <= MAX_READ)
            && (read.Ok? ==> read.value.version == Outcome(files, place, content, expected, disk).value && read.value.size == |content|)
            && (read.Ok? && !read.value.binary ==> read.value.raw == content)
            && (read.Ok? ==> Outcome(saved, place, next, Some(read.value.version), disk).Ok?)
  {
  }
}
