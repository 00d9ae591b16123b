/**
 * The file table (src/components/files/FileList.tsx): the set of files being deleted, which
 * keeps a second delete of the same file from starting, and the file-type shown.
 */
module FileList {
  import opened Common
  import opened Api

  // ----- the type column -----

  function UpperCase(c: char): char
  {
    if 'a' <= c <= 'z' then (c as int - 32) as char else c
  }

  function LowerCase(c: char): char
  {
    if 'A' <= c <= 'Z' then (c as int + 32) as char else c
  }

  /** `s.charAt(0).toUpperCase() + s.slice(1)` on ASCII text. */
  function Capitalize(s: string): (r: string)
    ensures |r| == |s|
    ensures s != [] ==> r[1..] == s[1..]
  {
    if s == [] then [] else [UpperCase(s[0])] + s[1..]
  }

  /** getFileTypeLabel: the MIME class with its first letter upper-cased. */
  function FileTypeLabel(mimeType: string): string
  {
    Capitalize(FileTypeFromMime(mimeType))
  }

  /** Lower-casing the first letter undoes Capitalize on a word that starts in lower case. */
  lemma CapitalizeRoundTrip(s: string)
    requires s != [] && 'a' <= s[0] <= 'z'
    ensures [LowerCase(Capitalize(s)[0])] + Capitalize(s)[1..] == s
  {
    assert LowerCase(UpperCase(s[0])) == s[0];
    assert [s[0]] + s[1..] == s;
  }

  /** The label is one of six words, and lower-casing its first letter gives back the class. */
  lemma FileTypeLabelSpec(mimeType: string)
    ensures FileTypeLabel(mimeType) in {"Image", "Video", "Audio", "Document", "Archive", "Code"}
    ensures |FileTypeLabel(mimeType)| > 0
    ensures [LowerCase(FileTypeLabel(mimeType)[0])] + FileTypeLabel(mimeType)[1..] == FileTypeFromMime(mimeType)
  {
    var t := FileTypeFromMime(mimeType);
    var shown := FileTypeLabel(mimeType);
    if t == "image" {
      assert shown == "Image";
    } else if t == "video" {
      assert shown == "Video";
    } else if t == "audio" {
      assert shown == "Audio";
    } else if t == "document" {
      assert shown == "Document";
    } else if t == "archive" {
      assert shown == "Archive";
    } else {
      assert shown == "Code";
    }
    CapitalizeRoundTrip(t);
  }

  /** Distinct classes get distinct labels. */
  lemma FileTypeLabelInjective(m1: string, m2: string)
    requires FileTypeLabel(m1) == FileTypeLabel(m2)
    ensures FileTypeFromMime(m1) == FileTypeFromMime(m2)
  {
    FileTypeLabelSpec(m1);
    FileTypeLabelSpec(m2);
  }

  // ----- the delete guard -----

  /** The description of the "File deleted" toast. */
  function DeletedMessage(filename: string): string
  {
    filename + " has been removed from your vault"
  }

  /** "Delete" in a row's menu is disabled while that file is being deleted. */
  predicate DeleteDisabled(deleting: set<int>, fileId: int)
  {
    fileId in deleting
  }

  class DeleteGuard {
    /** The ids of the files whose delete request is in flight. */
    var deleting: set<int>

    constructor ()
      ensures deleting == {}
    {
      deleting := {};
    }

    /** handleDelete up to the request: a no-op when the id is already in flight. */
    method BeginDelete(fileId: int) returns (started: bool)
      modifies this
      ensures started <==> fileId !in old(deleting)
      ensures deleting == old(deleting) + {fileId}
    {
      if fileId in deleting {
        return false;
      }
      deleting := deleting + {fileId};
      started := true;
    }

    /**
     * handleDelete after the request: the id leaves the set on success and failure alike,
     * and the parent is told only on success.
     */
    method FinishDelete(fileId: int, filename: string, outcome: Result<(), string>)
      returns (notifyParent: bool, toast: Toast)
      modifies this
      ensures deleting == old(deleting) - {fileId}
      ensures notifyParent <==> outcome.Ok?
      ensures outcome.Ok? ==> toast == Toast("File deleted", DeletedMessage(filename))
      ensures outcome.Err? ==> toast == Toast("Delete failed", outcome.error)
    {
      match outcome {
        case Ok(_) =>
          toast := Toast("File deleted", DeletedMessage(filename));
          notifyParent := true;
        case Err(e) =>
          toast := Toast("Delete failed", e);
          notifyParent := false;
      }
      deleting := deleting - {fileId};
    }

    /** One whole handleDelete with no other delete interleaved. */
    method HandleDelete(fileId: int, filename: string, outcome: Result<(), string>)
      returns (requested: bool, notifyParent: bool)
      modifies this
      ensures requested <==> fileId !in old(deleting)
      ensures requested ==> deleting == old(deleting)
      ensures !requested ==> deleting == old(deleting) && !notifyParent
      ensures notifyParent <==> requested && outcome.Ok?
    {
      requested := BeginDelete(fileId);
      if !requested {
        return requested, false;
      }
      var toast;
      notifyParent, toast := FinishDelete(fileId, filename, outcome);
    }
  }

  /**
   * Two deletes in flight at once: a second click on the first file is refused, and
   * finishing one delete leaves the other in the set.
   */
  method OverlappingDeletes(a: int, b: int, outcome: Result<(), string>)
    returns (secondClickStarted: bool, stillDeleting: set<int>, afterBoth: set<int>)
    requires a != b
    ensures !secondClickStarted
    ensures stillDeleting == {b}
    ensures afterBoth == {}
  {
    var guard := new DeleteGuard();
    var started := guard.BeginDelete(a);
    started := guard.BeginDelete(b);
    secondClickStarted := guard.BeginDelete(a);
    var notify, toast := guard.FinishDelete(a, "a", outcome);
    stillDeleting := guard.deleting;
    notify, toast := guard.FinishDelete(b, "b", outcome);
    afterBoth := guard.deleting;
  }
}
